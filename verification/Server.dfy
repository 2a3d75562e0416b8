/** internal/server: the Server object, its reconcile pass, shutdown and reload. */
module SupervisorServer {
  import opened Common
  import opened Dependencies
  import Graphs = DependencyGraph
  import opened Configuration
  import opened Blocking
  import opened Lifecycle
  import opened Objects
  import opened Supervisor
  import opened ManagedProcess
  import opened Reloading
  import opened Shutdown
  import opened Runs

  /** A configuration New and Reload go on with. */
  ghost predicate Acceptable(config: Config) {
    && !Cyclic(DepsOf(config.programs)) && ListedOnce(DepsOf(config.programs))
    && !Dangling(DepsOf(config.programs))
    && ConditionsReachable(config.programs) && LogsDisjoint(config.programs)
    && |config.socket| < MAX_SOCKET_PATH_LEN
  }

  /** What both do with a configuration first: validate it, then sort its graph. */
  method Vet(config: Config) returns (graph: Option<Graphs.Graph>)
    ensures graph.Some? <==> Acceptable(config)
    ensures graph.Some? ==> fresh(graph.value) && Graphs.Mirrored(graph.value.nodes)
                            && Graphs.DepsOf(graph.value.nodes) == DepsOf(config.programs)
  {
    var verdict := Validate(config);
    if verdict != Valid { return None; }
    var built := BuildDependencyGraph(config.programs);
    var order := built.TopologicalSort();
    graph := if order.None? then None else Some(built);
  }

  /**
   * The depth-first search of Validate and the two sorts on one configuration: the sorts always agree, and the
   * search agrees with them when all dependencies exist and are listed once.
   */
  method OrderChecks(programs: map<string, Program>) returns (acyclic: bool, sorts: bool, tiers: bool)
    ensures sorts == tiers
    ensures sorts <==> !Cyclic(DepsOf(programs)) && ListedOnce(DepsOf(programs))
    ensures acyclic <==> !Cyclic(DepsOf(programs)) && !AbsentTwice(DepsOf(programs))
    ensures !Dangling(DepsOf(programs)) && ListedOnce(DepsOf(programs)) ==> acyclic == sorts == tiers
  {
    hide *;
    var circular := FindCycle(DepsOf(programs));
    var graph := BuildDependencyGraph(programs);
    var order := graph.TopologicalSort();
    var groups := graph.Tiers();
    if AbsentTwice(DepsOf(programs)) { AbsentTwiceDangles(DepsOf(programs)); }
    acyclic, sorts, tiers := circular.None?, order.Some?, groups.Some?;
  }

  /** Listing a dependency twice is no cycle, but both sorts refuse it. */
  lemma ListedTwiceIsRefused(app: string, db: string, condition: Condition)
    requires app != db
    ensures var deps: Listing := map[app := [db, db], db := []];
      !Cyclic(deps) && !Dangling(deps) && !ListedOnce(deps)
  {
    var deps: Listing := map[app := [db, db], db := []];
    RankedIsAcyclic(deps, map[app := 1, db := 0]);
    assert !OnceAt(deps, app) by { assert deps[app][0] == deps[app][1]; }
  }

  /** server.go, New; logDirs says whether the log directories could be made. */
  method NewServer(config: Config, logDirs: bool) returns (server: Option<Server>)
    ensures server.Some? <==> Acceptable(config) && logDirs
    ensures server.Some? ==> fresh(server.value) && server.value.Valid() && server.value.config == config
    ensures server.Some? ==> IsInitial(server.value.Now(), config.programs)
    ensures server.Some? ==>
              && server.value.desired.Keys == server.value.processes.Keys == config.programs.Keys
              && forall n :: n in config.programs ==>
                   && server.value.desired[n] == (if config.programs[n].autostart then WantRunning else WantStopped)
                   && server.value.processes[n].state == Stopped
  {
    hide *;
    var vetted := Vet(config);
    if vetted.None? || !logDirs { return None; }
    var s := new Server(config, vetted.value);
    s.MakeProcesses();
    s.FirstLook(config);
    server := Some(s);
  }

  class Server {
    var config: Config
    var processes: map<string, Process>
    var desired: map<string, Desired>
    var inflight: set<string>
    var blockedReason: map<string, Unmet>
    var graph: Graphs.Graph
    /** Every process object ever made, and where the current ones are among them. */
    ghost var objects: seq<Process>
    ghost var slots: map<string, nat>
    ghost var history: seq<Event>
    /** Objects an act has slipped in on. */
    ghost var lost: set<nat>

    ghost function Views(): (views: seq<Obj>)
      reads this`objects, objects
      ensures |views| == |objects| && forall k :: 0 <= k < |objects| ==> views[k] == objects[k].View()
    {
      var all := objects;
      seq(|all|, k requires 0 <= k < |all| reads all => all[k].View())
    }

    /** What the step system of Supervisor knows of this server. */
    ghost function Now(): (w: World)
      reads this`config, this`slots, this`desired, this`inflight, this`history, this`objects, objects
      ensures w.programs == config.programs && w.current == slots && w.desired == desired && w.busy == inflight
      ensures w.objs == Views() && w.history == history
    {
      World(config.programs, Views(), slots, desired, inflight, history)
    }

    ghost predicate Linked()
      reads this`slots, this`processes, this`objects
    {
      && slots.Keys == processes.Keys
      && (forall n :: n in processes ==> slots[n] < |objects| && objects[slots[n]] == processes[n])
      && (forall i, j :: 0 <= i < j < |objects| ==> objects[i] != objects[j])
    }

    ghost predicate Valid()
      reads this`config, this`slots, this`processes, this`desired, this`inflight, this`history, this`objects, this`graph
      reads this`lost, objects, graph
    {
      && Linked()
      && Graphs.Mirrored(graph.nodes) && Graphs.DepsOf(graph.nodes) == DepsOf(config.programs)
      && InvBut(Now(), lost)
    }

    function Procs(): map<string, ProcessView>
      reads this`processes, processes.Values
    {
      map n | n in processes :: Supervisor.View(processes[n].Facts())
    }

    function Look(): Snapshot
      reads this`config, this`desired, this`processes, processes.Values
    {
      Snapshot(config.programs, Procs(), desired)
    }

    /** A look at the server is a look at the world it stands for. */
    lemma LookIsSnap()
      requires Linked()
      ensures Look() == Snap(Now())
    {
      assert forall n :: n in processes ==> ViewOf(Now(), n) == Supervisor.View(processes[n].Facts());
    }

    /** New objects sit in the slots from base on, as the programs of names. */
    ghost predicate Holds(base: nat, names: seq<string>, programs: map<string, Program>)
      reads this`objects, objects
    {
      && |objects| == base + |names|
      && forall i :: 0 <= i < |names| ==>
           names[i] in programs && objects[base + i].View() == NewObj(names[i], programs[names[i]])
    }

    constructor (config: Config, graph: Graphs.Graph)
      ensures this.config == config && this.graph == graph && Linked()
      ensures processes == map[] && desired == map[] && inflight == {} && blockedReason == map[]
      ensures objects == [] && slots == map[] && history == [] && lost == {}
    {
      this.config, this.graph := config, graph;
      processes, desired, inflight, blockedReason := map[], map[], {}, map[];
      objects, slots, history, lost := [], map[], [], {};
    }

    /** Every configured program gets a process up front, running or not. */
    method MakeProcesses()
      requires Graphs.Mirrored(graph.nodes) && Graphs.DepsOf(graph.nodes) == DepsOf(config.programs)
      requires Linked() && objects == [] && slots == map[] && desired == map[] && inflight == {} && history == []
      requires lost == {}
      modifies this`processes, this`desired, this`objects, this`slots
      ensures Valid() && IsInitial(Now(), config.programs) && fresh(objects)
    {
      var names := SortedProgramNames(config.programs);
      hide *;
      TrackAll(names, config.programs, FirstWishes(config.programs));
      StartsInitial(names);
      IsValid();
      assert objects[0..] == objects;
    }

    /** At first every program is STOPPED, and wanted as autostart says. */
    lemma FirstLook(config: Config)
      requires Valid() && IsInitial(Now(), config.programs)
      ensures desired.Keys == processes.Keys == config.programs.Keys
      ensures forall n :: n in config.programs ==>
                && desired[n] == (if config.programs[n].autostart then WantRunning else WantStopped)
                && processes[n].state == Stopped
    {
      hide InvBut;
      forall n | n in config.programs ensures n in processes && processes[n].state == Stopped {
        assert Now().objs[slots[n]].proc == NEW_PROC;
      }
    }

    lemma InvNow()
      requires Valid()
      ensures Linked() && InvBut(Now(), lost) && Shape(Now())
      ensures Graphs.Mirrored(graph.nodes) && Graphs.DepsOf(graph.nodes) == DepsOf(config.programs)
    {
    }

    lemma IsValid()
      requires Linked() && InvBut(Now(), lost)
      requires Graphs.Mirrored(graph.nodes) && Graphs.DepsOf(graph.nodes) == DepsOf(config.programs)
      ensures Valid()
    {
    }

    lemma StartsInitial(names: seq<string>)
      requires Linked() && Slotted(map[], slots, 0, names) && Holds(0, names, config.programs)
      requires (forall n :: n in names <==> n in config.programs) && inflight == {} && history == []
      requires Wishes(map[], desired, names, FirstWishes(config.programs))
      ensures IsInitial(Now(), config.programs) && InvBut(Now(), {})
    {
      hide *;
      MapsAtFirst(names);
      ObjectsAtFirst(names);
      AllNew(Now(), config.programs, names);
      InvInitial(Now(), config.programs);
      InvIs(Now());
    }

    lemma MapsAtFirst(names: seq<string>)
      requires Slotted(map[], slots, 0, names) && forall n :: n in names <==> n in config.programs
      requires Wishes(map[], desired, names, FirstWishes(config.programs))
      ensures slots.Keys == desired.Keys == config.programs.Keys
      ensures forall n :: n in config.programs ==> slots[n] < |names| && names[slots[n]] == n
      ensures forall n :: n in config.programs ==> desired[n] == FirstWish(config.programs[n])
    {
      forall n | n in config.programs ensures n in slots && slots[n] < |names| && names[slots[n]] == n {
        var i :| 0 <= i < |names| && names[i] == n;
        assert slots[names[i]] == i;
      }
    }

    lemma ObjectsAtFirst(names: seq<string>)
      requires Slotted(map[], slots, 0, names) && Holds(0, names, config.programs)
      ensures |Views()| == |names|
      ensures forall k :: 0 <= k < |names| ==>
        && names[k] in config.programs && names[k] in slots && slots[names[k]] == k
        && Views()[k] == NewObj(names[k], config.programs[names[k]])
    {
      forall k | 0 <= k < |names| ensures names[k] in slots && slots[names[k]] == k
        && Views()[k] == NewObj(names[k], config.programs[names[k]])
      {
        assert names[k] in Elements(names);
        assert objects[0 + k].View() == Views()[k];
      }
    }

    /** A new process for name. */
    method Track(name: string, program: Program) returns (proc: Process)
      requires Linked()
      modifies this`processes, this`objects, this`slots
      ensures Linked() && fresh(proc) && proc.View() == NewObj(name, program)
      ensures objects == old(objects) + [proc] && slots == old(slots)[name := |old(objects)|]
      ensures processes == old(processes)[name := proc]
    {
      proc := new Process(name, program);
      processes := processes[name := proc];
      slots := slots[name := |objects|];
      objects := objects + [proc];
    }

    /** A new process and a wish for each of names. */
    method TrackAll(names: seq<string>, programs: map<string, Program>, wishes: map<string, Desired>)
      requires Linked() && NoDup(names) && forall n :: n in names ==> n in programs && n in wishes
      modifies this`processes, this`desired, this`objects, this`slots
      ensures Linked() && Slotted(old(slots), slots, |old(objects)|, names)
      ensures old(objects) <= objects && fresh(objects[|old(objects)|..])
      ensures Holds(|old(objects)|, names, programs) && Wishes(old(desired), desired, names, wishes)
    {
      ghost var base := |objects|;
      hide *;
      SlottedNone(slots, base, names);
      HoldsNone(base, names, programs);
      WishesNone(desired, names, wishes);
      for i := 0 to |names|
        invariant Linked() && Slotted(old(slots), slots, base, names[..i])
        invariant old(objects) <= objects && fresh(objects[base..]) && |old(objects)| == base
        invariant Holds(base, names[..i], programs) && Wishes(old(desired), desired, names[..i], wishes)
      {
        OneMore(names, i);
        ghost var before, had, wished := slots, objects, desired;
        HoldsFacts(base, names, i, programs);
        var proc := Track(names[i], programs[names[i]]);
        desired := desired[names[i] := wishes[names[i]]];
        SlottedStep(old(slots), before, base, names, i);
        HoldsStep(had, base, names, i, programs);
        WishesStep(old(desired), wished, names, i, wishes);
        assert objects[base..] == had[base..] + [proc];
      }
      assert names[..|names|] == names;
    }

    lemma HoldsNone(base: nat, names: seq<string>, programs: map<string, Program>)
      requires |objects| == base
      ensures Holds(base, names[..0], programs)
    {
    }

    lemma HoldsFacts(base: nat, names: seq<string>, i: nat, programs: map<string, Program>)
      requires i <= |names| && Holds(base, names[..i], programs)
      ensures |objects| == base + i
      ensures forall j :: 0 <= j < i ==>
        names[j] in programs && objects[base + j].View() == NewObj(names[j], programs[names[j]])
    {
      forall j | 0 <= j < i
        ensures names[j] in programs && objects[base + j].View() == NewObj(names[j], programs[names[j]])
      {
        assert names[..i][j] == names[j];
      }
    }

    lemma HoldsStep(had: seq<Process>, base: nat, names: seq<string>, i: nat, programs: map<string, Program>)
      requires i < |names| && |had| == base + i && |objects| == |had| + 1 && had <= objects
      requires forall j :: 0 <= j < i ==>
        names[j] in programs && objects[base + j].View() == NewObj(names[j], programs[names[j]])
      requires names[i] in programs && objects[base + i].View() == NewObj(names[i], programs[names[i]])
      ensures Holds(base, names[..i + 1], programs)
    {
    }

    // ------------------------------------------------------------ what happens to an object

    /** One object acted; the server now stands for the world after that step. */
    twostate lemma ActSeen(step: Step)
      requires step.On? && step.obj < |objects| && objects == old(objects)
      requires CanAct(old(objects[step.obj].View()), step.act)
      requires slots == old(slots) && processes == old(processes) && desired == old(desired)
      requires config == old(config) && graph == old(graph) && unchanged(graph) && old(Valid())
      requires forall i :: 0 <= i < |objects| && i != step.obj ==> unchanged(objects[i])
      requires objects[step.obj].View() == Next(old(objects[step.obj].View()), step.act)
      requires inflight ==
               if Clears(old(objects[step.obj].View()), step.act) then old(inflight) - {objects[step.obj].name}
               else old(inflight)
      requires history == old(history) + NewEvents(step.obj, old(objects[step.obj].View()), step.act)
      ensures Linked() && Enabled(old(Now()), step) && Now() == Apply(old(Now()), step)
      ensures old(Now()).objs[step.obj] == old(objects[step.obj].View())
    {
      var k, act := step.obj, step.act;
      assert Views() == old(Views())[k := objects[k].View()];
      assert Now() == OnSpec(old(Now()), k, act) by { hide CanAct, Next, NewEvents, Clears; }
    }

    twostate lemma ActDone(step: Step)
      requires step.On? && step.obj < |objects| && objects == old(objects)
      requires CanAct(old(objects[step.obj].View()), step.act)
      requires slots == old(slots) && processes == old(processes) && desired == old(desired)
      requires config == old(config) && graph == old(graph) && unchanged(graph) && old(Valid())
      requires forall i :: 0 <= i < |objects| && i != step.obj ==> unchanged(objects[i])
      requires objects[step.obj].View() == Next(old(objects[step.obj].View()), step.act)
      requires inflight ==
               if Clears(old(objects[step.obj].View()), step.act) then old(inflight) - {objects[step.obj].name}
               else old(inflight)
      requires history == old(history) + NewEvents(step.obj, old(objects[step.obj].View()), step.act)
      requires lost == if SlipsIn(old(objects[step.obj].View()), step.act) then old(lost) + {step.obj} else old(lost)
      ensures Valid() && Enabled(old(Now()), step) && Now() == Apply(old(Now()), step)
    {
      ActSeen(step);
      hide CanAct, Next, NewEvents, Clears, SlipsIn, InvBut;
      InvButStep(old(Now()), old(lost), step);
    }

    /** The object at k is another than those at the other places. */
    lemma OnlyPlaceOf(k: nat)
      requires Valid() && k < |objects|
      ensures forall i :: 0 <= i < |objects| && i != k ==> objects[i] != objects[k]
      ensures Views()[k] == objects[k].View()
    {
    }

    /**
     * Something happens to a process, in use or dropped by a reload: a goroutine inside its Start or Stop gets on, its
     * child exits, its monitor, a timer or a probe has its say. Only an act that slips in costs the invariant its
     * object.
     */
    method Act(proc: Process, ghost k: nat, act: Act)
      requires Valid() && k < |objects| && objects[k] == proc && CanAct(proc.View(), act)
      modifies proc, this`history, this`inflight, this`lost
      ensures Valid() && Now() == Apply(old(Now()), On(k, act))
      ensures lost == if SlipsIn(old(proc.View()), act) then old(lost) + {k} else old(lost)
    {
      hide *;
      OnlyPlaceOf(k);
      ghost var events, slips := NewEvents(k, proc.View(), act), SlipsIn(proc.View(), act);
      var finished := proc.Act(act);
      inflight := if finished then inflight - {proc.name} else inflight;
      history, lost := history + events, if slips then lost + {k} else lost;
      ActDone(On(k, act));
    }

    // ------------------------------------------------------------ wishes

    /** Only the object at k changed. */
    twostate lemma OthersSame(k: nat)
      requires objects == old(objects) && slots == old(slots) && processes == old(processes) && old(Linked())
      requires k < |objects| && forall i :: 0 <= i < |objects| && i != k ==> unchanged(objects[i])
      ensures Views() == old(Views())[k := objects[k].View()] && Linked()
    {
    }

    /** No object and no slot changed. */
    twostate lemma ObjectsSame()
      requires objects == old(objects) && slots == old(slots) && processes == old(processes) && old(Linked())
      requires forall i :: 0 <= i < |objects| ==> unchanged(objects[i])
      ensures Views() == old(Views()) && Linked()
    {
    }

    lemma KnownProgram(name: string)
      requires Valid() && name in processes
      ensures name in Now().current && name in Now().desired && Now().current[name] < |Now().objs|
      ensures slots[name] < |objects| && objects[slots[name]] == processes[name] && processes[name].name == name
    {
      ShapeAt(Now(), name);
    }

    lemma WishSeen(w: World, name: string, want: Desired)
      requires Views() == w.objs && desired == w.desired[name := want] && slots == w.current
      requires config.programs == w.programs && inflight == w.busy && history == w.history
      ensures Now() == w.(desired := w.desired[name := want])
    {
      hide Server.Views;
    }

    lemma CanWish(name: string, want: Desired)
      requires Valid() && name in processes
      ensures Linked() && InvBut(Now().(desired := desired[name := want]), lost)
      ensures Graphs.Mirrored(graph.nodes) && Graphs.DepsOf(graph.nodes) == DepsOf(config.programs)
    {
      hide *;
      InvNow();
      KnownProgram(name);
      WishKeeps(Now(), lost, name, want);
    }

    method SetDesired(name: string, want: Desired) returns (ok: bool)
      requires Valid()
      modifies this`desired, this`blockedReason
      ensures Valid() && ok == (name in processes)
      ensures Now() == if ok then old(Now()).(desired := old(desired)[name := want]) else old(Now())
      ensures blockedReason == if ok && want == WantStopped then old(blockedReason) - {name} else old(blockedReason)
    {
      hide *;
      if name !in processes { return false; }
      ghost var w := Now();
      CanWish(name, want);
      desired := desired[name := want];
      if want == WantStopped { blockedReason := blockedReason - {name}; }
      ok := true;
      ObjectsSame();
      WishSeen(w, name, want);
      IsValid();
    }

    // ------------------------------------------------------------ the reconciler

    method IsSatisfied(dep: Dependency) returns (ok: bool)
      ensures ok == Satisfied(Look(), dep)
    {
      if dep.name !in processes { return false; }
      var proc := processes[dep.name];
      if dep.condition == Completed {
        ok := proc.HasCompleted();
        return;
      }
      if proc.state != Running { return false; }
      ok := dep.condition == Healthy ==> proc.health == CheckHealthy;
    }

    method DependenciesSatisfied(name: string) returns (unmet: Option<Unmet>)
      ensures unmet.None? <==> Blocking.DependenciesSatisfied(Look(), name)
      ensures unmet.Some? ==> Blames(Look(), name, unmet.value)
    {
      hide Satisfied, Server.Look;
      var list := if name in config.programs then config.programs[name].dependsOn else [];
      assert list == DependenciesOf(Look(), name) by { LookProgram(name); }
      for i := 0 to |list|
        invariant forall dep :: dep in list[..i] ==> Satisfied(Look(), dep)
      {
        assert list[i] in DependenciesOf(Look(), name);
        var ok := IsSatisfied(list[i]);
        if !ok {
          return Some(Unmet(list[i].name, list[i].condition));
        }
      }
      assert list[..|list|] == list;
      unmet := None;
    }

    lemma LookProgram(name: string)
      ensures DependenciesOf(Look(), name) == if name in config.programs then config.programs[name].dependsOn else []
    {
    }

    /** The facts a visit goes by are those of the world. */
    lemma VisitSees(name: string)
      requires Valid() && name in processes
      ensures Look() == Snap(Now()) && name in desired
      ensures slots[name] < |objects| && objects[slots[name]] == processes[name]
      ensures processes[name].name == name && name in Now().current && Now().current[name] == slots[name]
      ensures slots[name] < |Now().objs| && Now().objs[slots[name]].proc.state == processes[name].state
    {
      LookIsSnap();
      ShapeAt(Now(), name);
      hide Snap, Server.Look, InvBut;
    }

    /** The switch in reconcile, in terms of the server's own fields. */
    ghost function ActionFor(name: string): Option<Stage>
      requires name in processes && name in desired
      reads this`config, this`desired, this`processes, this`inflight, processes.Values
    {
      if name in inflight then None
      else if desired[name] == WantRunning && processes[name].state == Stopped then
        if Blocking.DependenciesSatisfied(Look(), name) then Some(StartQueued) else None
      else if desired[name] == WantStopped && processes[name].state !in {Stopped, Stopping} then Some(StopCalled)
      else None
    }

    lemma VisitIs(name: string)
      requires Valid() && name in processes
      ensures name in Now().current && Now().current[name] < |Now().objs| && name in desired
      ensures VisitSpec(Now(), name) ==
              if ActionFor(name).Some? then ActionSpec(Now(), name, ActionFor(name).value) else Now()
    {
      hide Blocking.DependenciesSatisfied, Snap, ActionSpec, InvBut, Server.Look, Server.Linked, Server.Views,
        Server.Valid, Server.Now, Process.View, Process.Facts, Graphs.Mirrored, Graphs.DepsOf, Configuration.DepsOf;
      VisitSees(name);
    }

    /** What reconcile makes of one program: nothing, or the action to run; a blocked program has its reason noted. */
    method Decide(name: string) returns (action: Option<Stage>)
      requires name in processes && name in desired
      modifies this`blockedReason
      ensures action == ActionFor(name)
      ensures action == Some(StopCalled) <==>
                && name !in inflight && desired[name] == WantStopped
                && processes[name].state in {Starting, Running, Backoff, Exited, Fatal}
      ensures action == Some(StartQueued) <==>
                && name !in inflight && desired[name] == WantRunning && processes[name].state == Stopped
                && Blocking.DependenciesSatisfied(Look(), name)
      ensures blockedReason - {name} == old(blockedReason) - {name}
      ensures name !in inflight && desired[name] == WantRunning && processes[name].state == Stopped ==>
                (if Blocking.DependenciesSatisfied(Look(), name) then name !in blockedReason
                 else name in blockedReason && Blames(Look(), name, blockedReason[name]))
    {
      hide Blocking.DependenciesSatisfied, Blames, Server.Look;
      var proc := processes[name];
      if name in inflight {
        return None;
      }
      if desired[name] == WantRunning && proc.state == Stopped {
        var unmet := DependenciesSatisfied(name);
        if unmet.Some? {
          blockedReason := blockedReason[name := unmet.value];
          return None;
        }
        blockedReason := blockedReason - {name};
        return Some(StartQueued);
      }
      if desired[name] == WantStopped && proc.state != Stopped && proc.state != Stopping {
        return Some(StopCalled);
      }
      return None;
    }

    lemma ActionQueued(w: World, name: string, stage: Stage)
      requires name in w.current && w.current[name] < |w.objs|
      requires Views() == w.objs[w.current[name] := WithCall(w.objs[w.current[name]], stage)] && slots == w.current
      requires desired == w.desired && config.programs == w.programs && history == w.history
      requires inflight == w.busy + {name}
      ensures Now() == ActionSpec(w, name, stage)
    {
      hide WithCall, Server.Views;
    }

    /** A start is not queued on a lost object. */
    ghost predicate Safe(name: string, stage: Stage)
      requires name in slots
      reads this`slots, this`lost
    {
      stage == StartQueued ==> slots[name] !in lost
    }

    lemma CanQueue(name: string, stage: Stage)
      requires Valid() && name in processes && name in Now().current && Now().current[name] < |Now().objs|
      requires name in desired && VisitSpec(Now(), name) == ActionSpec(Now(), name, stage)
      ensures Linked() && name in slots && (Safe(name, stage) ==> InvBut(ActionSpec(Now(), name, stage), lost))
      ensures Graphs.Mirrored(graph.nodes) && Graphs.DepsOf(graph.nodes) == DepsOf(config.programs)
      ensures name in slots && slots[name] < |objects| && objects[slots[name]] == processes[name]
      ensures forall i :: 0 <= i < |objects| && i != slots[name] ==> objects[i] != processes[name]
      ensures Now().objs[slots[name]] == processes[name].View()
    {
      hide *;
      InvNow();
      KnownProgram(name);
      OnlyPlaceOf(slots[name]);
      if Safe(name, stage) {
        SafeIs(name, stage);
        CanVisit(name);
        QueueIsSteady(Now(), lost, name, stage);
        VisitKeepsInv(Now(), lost, name);
      }
    }

    lemma SafeIs(name: string, stage: Stage)
      requires name in slots
      ensures Safe(name, stage) <==> (stage == StartQueued ==> slots[name] !in lost)
    {
    }

    lemma CanVisit(name: string)
      requires name in Now().current && Now().current[name] < |Now().objs| && name in desired
      ensures Enabled(Now(), Visit(name)) && Now().current[name] == slots[name]
    {
    }

    /** runAction marks the program busy and hands its object to a goroutine. */
    method RunAction(name: string, stage: Stage)
      requires Valid() && name in processes && name in Now().current && Now().current[name] < |Now().objs|
      requires name in desired && VisitSpec(Now(), name) == ActionSpec(Now(), name, stage) && name in slots
      modifies this`inflight, processes[name]
      ensures Linked() && Now() == ActionSpec(old(Now()), name, stage)
      ensures processes[name].calls == old(processes[name].calls) + [Call(stage, true)]
      ensures inflight == old(inflight) + {name}
      ensures Safe(name, stage) ==> Valid()
    {
      hide *;
      ghost var w := Now();
      CanQueue(name, stage);
      inflight := inflight + {name};
      processes[name].Queue(stage);
      OthersSame(slots[name]);
      ActionQueued(w, name, stage);
      if Safe(name, stage) { IsValid(); }
    }

    /** One round of the loop in reconcile. Only a start queued on a lost object can break the invariant. */
    method Reconcile(name: string)
      requires Valid() && name in processes
      modifies this`inflight, this`blockedReason, processes[name]
      ensures name in old(Now()).current && old(Now()).current[name] < |old(Now()).objs| && name in old(desired)
      ensures Linked() && Now() == VisitSpec(old(Now()), name)
      ensures name in slots && (slots[name] !in lost || old(ActionFor(name)) != Some(StartQueued) ==> Valid())
      ensures blockedReason - {name} == old(blockedReason) - {name}
      ensures name !in old(inflight) && desired[name] == WantRunning && old(processes[name].state) == Stopped ==>
                (if Blocking.DependenciesSatisfied(old(Look()), name) then name !in blockedReason
                 else name in blockedReason && Blames(old(Look()), name, blockedReason[name]))
    {
      hide *;
      VisitIs(name);
      InvNow();
      KnownProgram(name);
      var action := Decide(name);
      if action.Some? {
        SafeIs(name, action.value);
        RunAction(name, action.value);
      }
    }

    // ------------------------------------------------------------ operator commands

    /** What happens between two looks at a process, as far as it can. */
    method Meanwhile(events: seq<(Process, Act)>)
      requires Valid() && forall e :: e in events ==> e.0 in objects
      modifies objects, this`history, this`inflight, this`lost
      ensures Valid() && Leads(old(Now()), Now())
    {
      ghost var w := Now();
      hide *;
      LeadsNowhere(w);
      for i := 0 to |events|
        invariant Valid() && Leads(w, Now())
      {
        var proc, act := events[i].0, events[i].1;
        assert events[i] in events;
        if CanAct(proc.View(), act) {
          ghost var k :| 0 <= k < |objects| && objects[k] == proc;
          ghost var v := Now();
          SeenAt(k);
          ActIsStep(v, k, act);
          Act(proc, k, act);
          LeadsOn(w, v, On(k, act));
        }
      }
    }

    /**
     * StartProcess, up to the Stop that releases a program that stopped by itself; when that Stop has returned, or
     * at once if there is none, SetDesired records the wish. The state is read twice, with other events in between.
     */
    method StartProcess(name: string, between: seq<(Process, Act)>) returns (ok: bool, released: bool)
      requires Valid() && forall e :: e in between ==> e.0 in objects
      modifies objects, this`history, this`inflight, this`lost
      ensures Valid() && ok == (name in processes && old(processes[name].state) != Running)
      ensures !ok ==> !released && Now() == old(Now())
      ensures !released ==> Leads(old(Now()), Now())
      ensures ok && !released ==> !IsStopped(processes[name].state)
      ensures released ==> exists mid ::
                Leads(old(Now()), mid) && name in mid.current && mid.current[name] < |mid.objs|
                && IsStopped(mid.objs[mid.current[name]].proc.state)
                && Now() == OnSpec(mid, mid.current[name], CalledToStop)
    {
      hide *;
      ok, released := false, false;
      LeadsNowhere(Now());
      if name !in processes { return; }
      var proc := processes[name];
      if proc.state == Running { return; }
      ok := true;
      Meanwhile(between);
      KnownProgram(name);
      VisitSees(name);
      released := IsStopped(proc.state);
      if released {
        ghost var mid := Now();
        AlwaysCallable(proc.View());
        Act(proc, slots[name], CalledToStop);
        CalledIsSpec(mid, slots[name]);
        assert Leads(old(Now()), mid) && name in mid.current && mid.current[name] < |mid.objs|;
      }
    }

    lemma AlwaysCallable(o: Obj)
      ensures CanAct(o, CalledToStop)
    {
    }

    lemma CalledIsSpec(w: World, k: nat)
      requires k < |w.objs|
      ensures CanAct(w.objs[k], CalledToStop) && Apply(w, On(k, CalledToStop)) == OnSpec(w, k, CalledToStop)
    {
      hide NextProc;
    }

    // ------------------------------------------------------------ reload

    /**
     * Reload, up to the wait for the programs that go away or change. elsewhere: another daemon setting differs, or
     * a log directory cannot be made.
     */
    method BeginReload(newCfg: Config, elsewhere: bool) returns (plan: ReloadPlan)
      requires Valid()
      modifies this`desired, this`blockedReason
      ensures Valid()
      ensures plan.Refused? <==> !Acceptable(newCfg) || newCfg.socket != config.socket || elsewhere
      ensures plan.NothingToDo? <==> !plan.Refused? && newCfg.programs == config.programs
      ensures !plan.Replacing? ==> Now() == old(Now()) && blockedReason == old(blockedReason)
      ensures plan.Replacing? ==>
                && AreChanges(config.programs, newCfg.programs, plan.added, plan.removed, plan.changed)
                && plan.previous == old(desired)
                && Now() == old(Now()).(desired := StoppedAll(old(desired), plan.removed + plan.changed))
                && blockedReason == old(blockedReason) - Forgotten(processes.Keys, plan.removed + plan.changed)
    {
      hide *;
      var vetted := Vet(newCfg);
      if vetted.None? || newCfg.socket != config.socket || elsewhere {
        return Refused;
      }
      var added, removed, changed := DiffPrograms(config.programs, newCfg.programs);
      EmptyChanges(config.programs, newCfg.programs, added, removed, changed);
      if added == [] && removed == [] && changed == [] {
        return NothingToDo;
      }
      var previous := desired;
      StopForReload(removed + changed);
      plan := Replacing(previous, added, removed, changed);
    }

    /** stopForReload: from here on the reconciler stops them. */
    method StopForReload(names: seq<string>)
      requires Valid()
      modifies this`desired, this`blockedReason
      ensures Valid()
      ensures Now() == old(Now()).(desired := StoppedAll(old(desired), names))
      ensures blockedReason == old(blockedReason) - Forgotten(processes.Keys, names)
    {
      hide *;
      ghost var w := Now();
      StoppedNone(desired, names);
      ForgottenNone(blockedReason, processes.Keys, names);
      for i := 0 to |names|
        invariant Valid() && Now() == w.(desired := StoppedAll(old(desired), names[..i]))
        invariant blockedReason == old(blockedReason) - Forgotten(processes.Keys, names[..i])
      {
        SameNames();
        StoppedStep(old(desired), names, i);
        ForgottenStep(old(blockedReason), processes.Keys, names, i);
        var ok := SetDesired(names[i], WantStopped);
      }
      assert names[..|names|] == names;
    }

    lemma SameNames()
      requires Valid()
      ensures processes.Keys == desired.Keys == slots.Keys == config.programs.Keys && inflight <= config.programs.Keys
    {
    }

    method RemovePrograms(removed: seq<string>)
      requires Linked()
      modifies this`processes, this`desired, this`inflight, this`blockedReason, this`slots
      ensures Linked() && slots == old(slots) - Elements(removed)
      ensures desired == old(desired) - Elements(removed)
      ensures inflight == old(inflight) - Elements(removed)
      ensures blockedReason == old(blockedReason) - Elements(removed)
    {
      NothingYet(removed);
      for i := 0 to |removed|
        invariant Linked() && slots == old(slots) - Elements(removed[..i])
        invariant desired == old(desired) - Elements(removed[..i])
        invariant inflight == old(inflight) - Elements(removed[..i])
        invariant blockedReason == old(blockedReason) - Elements(removed[..i])
      {
        OneMore(removed, i);
        MinusStep(old(slots), Elements(removed[..i]), removed[i]);
        MinusStep(old(desired), Elements(removed[..i]), removed[i]);
        MinusStep(old(blockedReason), Elements(removed[..i]), removed[i]);
        processes := processes - {removed[i]};
        slots := slots - {removed[i]};
        desired := desired - {removed[i]};
        inflight := inflight - {removed[i]};
        blockedReason := blockedReason - {removed[i]};
      }
      assert removed[..|removed|] == removed;
    }

    method ForgetReasons(names: seq<string>)
      modifies this`blockedReason
      ensures blockedReason == old(blockedReason) - Elements(names)
    {
      NothingYet(names);
      for i := 0 to |names|
        invariant blockedReason == old(blockedReason) - Elements(names[..i])
      {
        OneMore(names, i);
        MinusStep(old(blockedReason), Elements(names[..i]), names[i]);
        blockedReason := blockedReason - {names[i]};
      }
      assert names[..|names|] == names;
    }

    /**
     * applyPrograms: swap in a configuration, keeping what did not change. Only adding a program back while an action
     * on a dropped object of its name is in flight can break the invariant.
     */
    method ApplyPrograms(newCfg: Config, previous: map<string, Desired>,
                         added: seq<string>, removed: seq<string>, changed: seq<string>)
      requires Valid() && AreChanges(config.programs, newCfg.programs, added, removed, changed)
      requires forall n :: n in changed ==> n in previous
      modifies this
      ensures CanSwap(old(Now()), newCfg.programs, previous, changed + added)
      ensures Linked() && config == newCfg
      ensures NoEarlyReturn(old(Now()), newCfg.programs) ==> Valid()
      ensures Now() == SwapSpec(old(Now()), newCfg.programs, previous, changed + added)
      ensures old(objects) <= objects && fresh(objects[|old(objects)|..]) && fresh(graph)
      ensures blockedReason == old(blockedReason) - Elements(removed) - Elements(changed)
    {
      hide *;
      ghost var w := Now();
      ReadyToSwap(newCfg.programs, previous, added, removed, changed);
      SwapMaps(newCfg.programs, previous, added, removed, changed);
      config := newCfg;
      graph := BuildDependencyGraph(newCfg.programs);
      SwapDone(w, newCfg.programs, previous, changed + added);
    }

    lemma SwapDone(w: World, programs: map<string, Program>, previous: map<string, Desired>, made: seq<string>)
      requires Linked() && InvBut(w, lost) && CanSwap(w, programs, previous, made)
      requires forall n :: n in made ==> n in programs
      requires Graphs.Mirrored(graph.nodes) && Graphs.DepsOf(graph.nodes) == DepsOf(config.programs)
      requires config.programs == programs && slots == SwapSpec(w, programs, previous, made).current
      requires desired == SwapSpec(w, programs, previous, made).desired
      requires Views() == w.objs + NewObjs(programs, made)
      requires inflight == w.busy * programs.Keys && history == w.history
      ensures Now() == SwapSpec(w, programs, previous, made)
      ensures NoEarlyReturn(w, programs) ==> Valid()
    {
      hide *;
      SwapWorld(w, programs, previous, made, Now());
      if NoEarlyReturn(w, programs) {
        SwapKeepsInv(w, lost, programs, previous, made);
        IsValid();
      }
    }

    /** The three loops of applyPrograms. */
    method SwapMaps(programs: map<string, Program>, previous: map<string, Desired>,
                    added: seq<string>, removed: seq<string>, changed: seq<string>)
      requires Linked() && CanSwap(Now(), programs, previous, changed + added)
      requires NoDup(changed) && NoDup(added) && (forall n :: n in changed || n in added ==> n in programs)
      requires forall n :: n in changed ==> n in previous && n in Now().programs
      requires forall n :: n in added ==> n !in Now().programs
      requires forall n :: n in removed <==> n in Now().programs && n !in programs
      requires inflight <= Now().programs.Keys
      modifies this`processes, this`desired, this`inflight, this`blockedReason, this`objects, this`slots
      ensures Linked() && inflight == old(inflight) * programs.Keys
      ensures slots == SwapSpec(old(Now()), programs, previous, changed + added).current
      ensures desired == SwapSpec(old(Now()), programs, previous, changed + added).desired
      ensures forall n :: n in changed + added ==> n in programs
      ensures Views() == old(Views()) + NewObjs(programs, changed + added)
      ensures old(objects) <= objects && fresh(objects[|old(objects)|..])
      ensures blockedReason == old(blockedReason) - Elements(removed) - Elements(changed)
    {
      ghost var w, base := Now(), |objects|;
      var firstWishes := FirstWishes(programs);
      hide *;
      BusySwapped(inflight, w.programs, programs, removed);
      RemovePrograms(removed);
      ghost var s1, d1 := slots, desired;
      TrackAll(changed, programs, previous);
      HeldFacts(base, changed, programs);
      ForgetReasons(changed);
      ghost var s2, d2, o2 := slots, desired, objects;
      TrackAll(added, programs, firstWishes);
      HeldFacts(base + |changed|, added, programs);
      OldSame();
      ViewsSwapped(w.objs, o2, changed, added, programs);
      SlotsSwapped(w, programs, previous, added, removed, changed, s1, s2, slots);
      WishesSwapped(w, programs, previous, added, removed, changed, d1, d2, desired);
      assert objects[base..] == o2[base..] + objects[|o2|..];
    }

    /** What the maps of the server look like before a reload swaps them. */
    lemma ReadyToSwap(programs: map<string, Program>, previous: map<string, Desired>,
                      added: seq<string>, removed: seq<string>, changed: seq<string>)
      requires Valid() && AreChanges(config.programs, programs, added, removed, changed)
      requires forall n :: n in changed ==> n in previous
      ensures Linked() && InvBut(Now(), lost) && CanSwap(Now(), programs, previous, changed + added)
      ensures NoDup(changed) && NoDup(added) && (forall n :: n in changed || n in added ==> n in programs)
      ensures forall n :: n in added ==> n in FirstWishes(programs)
      ensures forall n :: n in changed ==> n in previous && n in Now().programs
      ensures forall n :: n in added ==> n !in Now().programs
      ensures forall n :: n in removed <==> n in Now().programs && n !in programs
      ensures inflight <= config.programs.Keys
    {
      ShapeNow();
      AddedAre(config.programs, programs, added, removed, changed);
      hide AreChanges, InvBut, Server.Linked, NoDup;
      MadeByReload(Now(), programs, previous, added, removed, changed);
    }

    lemma ShapeNow()
      requires Valid()
      ensures Shape(Now()) && Linked() && InvBut(Now(), lost) && inflight <= config.programs.Keys
    {
    }

    lemma HeldFacts(base: nat, names: seq<string>, programs: map<string, Program>)
      requires Holds(base, names, programs)
      ensures |objects| == base + |names|
      ensures forall i :: 0 <= i < |names| ==>
        names[i] in programs && objects[base + i].View() == NewObj(names[i], programs[names[i]])
    {
    }

    /** The objects there were did not change. */
    twostate lemma OldSame()
      requires old(objects) <= objects && forall k :: 0 <= k < |old(objects)| ==> unchanged(old(objects)[k])
      ensures forall k :: 0 <= k < |old(objects)| ==> objects[k].View() == old(Views())[k]
    {
    }

    /** The objects there were, and after them the new ones. */
    lemma ViewsSwapped(views: seq<Obj>, had: seq<Process>, changed: seq<string>, added: seq<string>,
                       programs: map<string, Program>)
      requires had <= objects && |had| == |views| + |changed| && |objects| == |had| + |added|
      requires forall k :: 0 <= k < |views| ==> objects[k].View() == views[k]
      requires forall i :: 0 <= i < |changed| ==>
        changed[i] in programs && had[|views| + i].View() == NewObj(changed[i], programs[changed[i]])
      requires forall i :: 0 <= i < |added| ==>
        added[i] in programs && objects[|had| + i].View() == NewObj(added[i], programs[added[i]])
      ensures forall n :: n in changed + added ==> n in programs
      ensures Views() == views + NewObjs(programs, changed + added)
    {
      var made := changed + added;
      hide NewObj;
      forall k | |views| <= k < |objects| ensures Views()[k] == NewObjs(programs, made)[k - |views|] {
        if k < |had| {
          assert made[k - |views|] == changed[k - |views|];
        } else {
          assert made[k - |views|] == added[k - |had|];
        }
      }
    }

    // ------------------------------------------------------------ shutdown

    lemma ActIsSpec(w: World, k: nat, act: Act)
      requires k < |w.objs| && CanAct(w.objs[k], act)
      ensures Apply(w, On(k, act)) == OnSpec(w, k, act) && |OnSpec(w, k, act).objs| == |w.objs|
      ensures OnSpec(w, k, act).objs[k] == Next(w.objs[k], act)
    {
      hide CanAct, Next, NewEvents, Clears;
    }

    lemma SeenAt(k: nat)
      requires Valid() && k < |objects|
      ensures k < |Now().objs| && Now().objs[k] == objects[k].View()
    {
      hide InvBut;
    }

    /** The Stop calls of one tier have got as far as t says, and what rested at first still does. */
    ghost predicate TierSoFar(w: World, t: Tier)
      reads this`config, this`slots, this`desired, this`inflight, this`history, this`objects, this`lost, objects
    {
      && TierOk(Now(), t) && t.lost == lost && |Now().objs| == |w.objs|
      && forall k :: RestsIn(w, k) ==> RestsIn(Now(), k)
    }

    lemma SoFar(w: World, t: Tier)
      requires TierSoFar(w, t)
      ensures TierOk(Now(), t) && t.lost == lost && |Now().objs| == |w.objs|
      ensures forall j: nat :: RestsIn(w, j) ==> RestsIn(Now(), j)
    {
      hide TierOk, RestsIn, Server.Now;
    }

    lemma IsSoFar(w: World, t: Tier)
      requires TierOk(Now(), t) && t.lost == lost && |Now().objs| == |w.objs|
      requires forall j: nat :: RestsIn(w, j) ==> RestsIn(Now(), j)
      ensures TierSoFar(w, t)
    {
      hide TierOk, RestsIn, Server.Now;
    }

    lemma RestedStay(w: World, before: World, k: nat, act: Act)
      requires k < |before.objs| && CanAct(before.objs[k], act)
      requires forall j: nat :: RestsIn(w, j) ==> RestsIn(before, j)
      ensures forall j: nat :: RestsIn(w, j) ==> RestsIn(OnSpec(before, k, act), j)
    {
      forall j: nat | RestsIn(w, j) ensures RestsIn(OnSpec(before, k, act), j) { RestsStay(before, j, k, act); }
    }

    lemma NoCall(w: World, t: Tier, k: nat, act: Act)
      requires CallOf(act).None? && k < |w.objs|
      ensures Elsewhere(w, t, k, act) && Expected(w, t.lost, k, act) && forall o :: !SlipsIn(o, act)
    {
    }

    /** Something happens to the object at k that is on none of the calls of the tier. */
    method HappensInTier(proc: Process, ghost k: nat, act: Act, ghost w: World, ghost t: Tier)
      requires Valid() && k < |objects| && objects[k] == proc && CanAct(proc.View(), act)
      requires CallOf(act).None? && TierSoFar(w, t)
      modifies proc, this`history, this`inflight, this`lost
      ensures Valid() && TierSoFar(w, t) && proc.View() == Next(old(proc.View()), act)
    {
      ghost var before := Now();
      hide *;
      SoFar(w, t);
      SeenAt(k);
      NoCall(before, t, k, act);
      ActIsSpec(before, k, act);
      Act(proc, k, act);
      SeenAt(k);
      TierStays(before, t, k, act);
      RestedStay(w, before, k, act);
      IsSoFar(w, t);
    }

    /** The run r of the object comes to its end, whatever that takes. */
    method RunEnds(proc: Process, ghost k: nat, r: nat, ghost w: World, ghost t: Tier)
      requires Valid() && k < |objects| && objects[k] == proc && TierSoFar(w, t) && r < |proc.runs|
      modifies proc, this`history, this`inflight, this`lost
      ensures Valid() && TierSoFar(w, t) && r < |proc.runs| && proc.runs[r].phase.Over?
      ensures proc.calls == old(proc.calls)
    {
      while !proc.runs[r].phase.Over?
        invariant Valid() && TierSoFar(w, t) && r < |proc.runs| && proc.calls == old(proc.calls)
        decreases PhasesLeft(proc.runs[r].phase)
      {
        var status: Status, long: bool, launched: bool := *, *, *;
        hide *;
        var act := Ending(proc.View(), r, status, long, launched);
        RunsSeen(proc);
        EndingHelps(proc.View(), r, status, long, launched);
        ItHelps(proc.View(), r, act);
        CallsSame(proc.View(), act);
        HappensInTier(proc, k, act, w, t);
        RunsSeen(proc);
      }
    }

    lemma ItHelps(o: Obj, r: nat, act: Act)
      requires Helps(o, r, act)
      ensures CanAct(o, act) && CallOf(act).None? && !act.CalledToStop? && r < |o.proc.runs| <= |Next(o, act).proc.runs|
      ensures PhasesLeft(Next(o, act).proc.runs[r].phase) < PhasesLeft(o.proc.runs[r].phase)
    {
    }

    lemma RunsSeen(proc: Process)
      ensures proc.View().proc.runs == proc.runs && proc.View().calls == proc.calls
    {
    }

    lemma CallsSame(o: Obj, act: Act)
      requires CanAct(o, act) && CallOf(act).None? && !act.CalledToStop?
      ensures Next(o, act).calls == o.calls
    {
    }

    /** A program whose Stop begins between the cancel check and the restart is given up for lost. */
    lemma Loses(w: World, t: Tier, k: nat, had: set<nat>)
      requires Linked() && InvBut(Now(), had) && lost == had + {k} && t.lost == had
      requires Graphs.Mirrored(graph.nodes) && Graphs.DepsOf(graph.nodes) == DepsOf(config.programs)
      requires TierOk(Now(), t) && |Now().objs| == |w.objs| && forall j: nat :: RestsIn(w, j) ==> RestsIn(Now(), j)
      ensures Valid() && TierSoFar(w, t.(lost := lost))
    {
      hide *;
      TierLoses(Now(), t, k);
      InvButMore(Now(), had, k);
      IsValid();
      IsSoFar(w, t.(lost := lost));
    }

    /** Stop is called on n, and its first half runs; late says that it begins between cancel check and restart. */
    method CallsOne(proc: Process, ghost k: nat, ghost w: World, ghost t: Tier, n: string) returns (c: nat, late: bool)
      requires Valid() && k < |objects| && objects[k] == proc && TierSoFar(w, t)
      requires n in t.uncalled && n in slots && slots[n] == k
      modifies proc, this`history, this`inflight, this`lost
      ensures late == old(InGap(proc.Facts())) && lost == if late then old(lost) + {k} else old(lost)
      ensures Valid() && TierSoFar(w, CalledTier(t.(lost := lost), n, c))
    {
      hide *;
      late := InGap(proc.Facts());
      InvNow();
      SoFar(w, t);
      if late {
        ghost var had := lost;
        lost := lost + {k};
        Loses(w, t, k, had);
      }
      ghost var t1 := t.(lost := lost);
      TierWith(t);
      SoFar(w, t1);
      CanBeCalled(k, t1, n);
      c := CallAndMark(proc, k, w, t1, n);
    }

    lemma TierWith(t: Tier)
      requires t.lost <= lost
      ensures t.lost == lost ==> t.(lost := lost) == t
      ensures t.(lost := lost).uncalled == t.uncalled && t.(lost := lost).lost == lost
    {
    }

    lemma CanBeCalled(k: nat, t: Tier, n: string)
      requires Valid() && k < |objects| && TierOk(Now(), t) && n in t.uncalled && n in slots && slots[n] == k
      ensures Has(Now(), n) && ObjAt(Now(), n) == objects[k].View() && Now().current[n] == k
      ensures ObjAt(Now(), n).proc == objects[k].Facts()
      ensures |objects[k].View().calls| == |objects[k].calls|
      ensures k in t.lost || !InGap(objects[k].Facts()) ==>
                && CanAct(objects[k].View(), CalledToStop)
                && Next(objects[k].View(), CalledToStop).proc == objects[k].Facts()
                && CanAct(Next(objects[k].View(), CalledToStop), StopMarks(|objects[k].calls|))
    {
      var w := Now();
      SeenAt(k);
      WithinNames(w, t, n);
      WithoutOk(w, t, n);
      if k in t.lost || !InGap(objects[k].Facts()) { CallGoes(ObjAt(w, n), k in t.lost); }
      hide TierOk, CanAct, Next, InvBut, InGap, Server.Valid;
    }

    /** The act that begins a stop slips in only in the gap. */
    lemma MarkSlips(o: Obj, c: nat)
      ensures !SlipsIn(o, CalledToStop) && (SlipsIn(o, StopMarks(c)) ==> InGap(o.proc))
    {
    }

    /** A call of Stop and the first half of it. */
    method CallAndMark(proc: Process, ghost k: nat, ghost w: World, ghost t: Tier, n: string) returns (c: nat)
      requires Valid() && k < |objects| && objects[k] == proc && TierSoFar(w, t)
      requires n in t.uncalled && Has(Now(), n) && ObjAt(Now(), n) == proc.View() && Now().current[n] == k
      requires |proc.View().calls| == |proc.calls| && (k in t.lost || !InGap(proc.Facts()))
      requires CanAct(proc.View(), CalledToStop) && Next(proc.View(), CalledToStop).proc == proc.Facts()
      requires ObjAt(Now(), n).proc == proc.Facts()
      requires CanAct(Next(proc.View(), CalledToStop), StopMarks(|proc.calls|))
      modifies proc, this`history, this`inflight, this`lost
      ensures Valid() && lost == old(lost) && TierSoFar(w, CalledTier(t, n, c))
    {
      hide *;
      ghost var before := Now();
      SoFar(w, t);
      c := |proc.calls|;
      MarkSlips(proc.View(), c);
      SeenAt(k);
      ActIsSpec(before, k, CalledToStop);
      HasStays(before, n, CalledToStop);
      Act(proc, k, CalledToStop);
      ghost var mid := Now();
      MarkSlips(proc.View(), c);
      SeenAt(k);
      ActIsSpec(mid, k, StopMarks(c));
      Act(proc, k, StopMarks(c));
      assert old(lost) + {k} == old(lost) || k !in t.lost;
      TierCalled(before, t, n, mid, Now());
      RestedStay(w, before, k, CalledToStop);
      RestedStay(w, mid, k, StopMarks(c));
      CallKeepsLost(t, n, c);
      IsSoFar(w, CalledTier(t, n, c));
    }

    lemma HasStays(w: World, n: string, act: Act)
      requires Has(w, n) && CanAct(ObjAt(w, n), act)
      ensures var v := OnSpec(w, w.current[n], act);
        v.current == w.current && Has(v, n) && ObjAt(v, n) == Next(ObjAt(w, n), act)
    {
      hide CanAct, Next, NewEvents, Clears;
    }

    lemma CallKeepsLost(t: Tier, n: string, c: nat)
      ensures CalledTier(t, n, c).lost == t.lost && ReturnedTier(t, n).lost == t.lost
      ensures forall waits :: LandedTier(t, n, waits).lost == t.lost
    {
    }

    lemma WithinNames(w: World, t: Tier, n: string)
      requires TierOk(w, t) && (n in t.uncalled || n in t.landing || n in t.waiting)
      ensures n in t.names
    {
      hide InvBut, NoStarts, OnItsWay, Ended;
    }

    /** Stop of n gets over its second half; waits says whether it goes on to wait for a monitor. */
    method LandsOne(proc: Process, ghost k: nat, ghost w: World, ghost t: Tier, n: string, c: nat) returns (waits: bool)
      requires Valid() && k < |objects| && objects[k] == proc && TierSoFar(w, t)
      requires n in t.landing && n in slots && slots[n] == k && n in t.call && t.call[n] == c
      modifies proc, this`history, this`inflight, this`lost
      ensures Valid() && lost == old(lost) && TierSoFar(w, LandedTier(t, n, waits))
    {
      ghost var before := Now();
      hide *;
      SoFar(w, t);
      CallKnown(k, t, n, c);
      waits := !(IsStopped(proc.calls[c].stage.seen) || proc.calls[c].stage.seen == Backoff);
      SeenAt(k);
      ActIsSpec(before, k, StopLands(c));
      NoSlip(proc.View(), c, false);
      Act(proc, k, StopLands(c));
      TierLanded(before, t, n, c, Now());
      RestedStay(w, before, k, StopLands(c));
      CallKeepsLost(t, n, c);
      IsSoFar(w, LandedTier(t, n, waits));
    }

    lemma NoSlip(o: Obj, c: nat, gaveUp: bool)
      ensures !SlipsIn(o, StopLands(c)) && !SlipsIn(o, StopReturns(c, gaveUp))
    {
    }

    lemma CallKnown(k: nat, t: Tier, n: string, c: nat)
      requires Valid() && k < |objects| && TierOk(Now(), t)
      requires n in t.landing + t.waiting && n in slots && slots[n] == k && n in t.call && t.call[n] == c
      ensures Has(Now(), n) && ObjAt(Now(), n) == objects[k].View() && Now().current[n] == k
      ensures c < |objects[k].calls| && objects[k].calls == objects[k].View().calls
      ensures n in t.landing ==> objects[k].calls[c].stage.StopMarked? && CanAct(objects[k].View(), StopLands(c))
      ensures n in t.landing ==>
                (ReadsStopped(objects[k].calls[c].stage.seen) <==>
                 IsStopped(objects[k].calls[c].stage.seen) || objects[k].calls[c].stage.seen == Backoff)
      ensures n in t.waiting ==> objects[k].calls[c].stage.StopWaiting?
      ensures n in t.waiting ==> CanAct(objects[k].View(), StopReturns(c, true))
    {
      SeenAt(k);
      GoesOn(Now(), t, n);
      hide TierOk, InvBut, Going, Server.Valid, IsStopped;
    }

    /** Stop of n returns: the run it waits for is over, or it gives up. */
    method ReturnsOne(proc: Process, ghost k: nat, ghost w: World, ghost t: Tier, n: string, c: nat, gaveUp: bool)
      requires Valid() && k < |objects| && objects[k] == proc && TierSoFar(w, t)
      requires n in t.waiting && n in slots && slots[n] == k && n in t.call && t.call[n] == c
      requires gaveUp ==> n in t.stuck
      modifies proc, this`history, this`inflight, this`lost
      ensures Valid() && lost == old(lost) && TierSoFar(w, ReturnedTier(t, n))
    {
      hide *;
      SoFar(w, t);
      IsWaiting(t, n);
      CallKnown(k, t, n, c);
      var awaited := proc.calls[c].stage.awaited;
      if !gaveUp && awaited.Some? && awaited.value < |proc.runs| {
        RunEnds(proc, k, awaited.value, w, t);
      }
      ghost var before := Now();
      SoFar(w, t);
      CallKnown(k, t, n, c);
      RunsSeen(proc);
      if !gaveUp { ReturnsWhenDone(proc.View(), c); }
      SeenAt(k);
      ActIsSpec(before, k, StopReturns(c, gaveUp));
      NoSlip(proc.View(), c, gaveUp);
      Act(proc, k, StopReturns(c, gaveUp));
      TierReturned(before, t, n, gaveUp, Now());
      RestedStay(w, before, k, StopReturns(c, gaveUp));
      CallKeepsLost(t, n, c);
      IsSoFar(w, ReturnedTier(t, n));
    }

    lemma IsWaiting(t: Tier, n: string)
      requires n in t.waiting
      ensures n in t.landing + t.waiting
    {
    }

    /** One Stop of the tier is called, gets over its second half, or returns. */
    method StopOne(name: string, names: set<string>, stuck: set<string>, log: seq<StopEvent>, uncalled: set<string>,
                   landing: set<string>, waiting: set<string>, call: map<string, nat>, ghost w: World)
      returns (log': seq<StopEvent>, uncalled': set<string>, landing': set<string>, waiting': set<string>,
               call': map<string, nat>, late: bool)
      requires Valid() && name in uncalled + landing + waiting
      requires TierSoFar(w, Tier(names, stuck, lost, uncalled, landing, waiting, call))
      requires StopsSoFar(log, names, uncalled, landing + waiting)
      modifies objects, this`history, this`inflight, this`lost
      ensures Valid() && TierSoFar(w, Tier(names, stuck, lost, uncalled', landing', waiting', call'))
      ensures StopsSoFar(log', names, uncalled', landing' + waiting')
      ensures late ==> name in names && name in slots
      ensures lost == if late then old(lost) + {slots[name]} else old(lost)
      ensures uncalled' < uncalled || (uncalled' == uncalled && landing' < landing)
              || (uncalled' == uncalled && landing' == landing && waiting' < waiting)
    {
      ghost var t := Tier(names, stuck, lost, uncalled, landing, waiting, call);
      hide *;
      log', uncalled', landing', waiting', call', late := log, uncalled, landing, waiting, call, false;
      TierProgram(w, t, name);
      var proc := processes[name];
      StopsStep(log, names, uncalled, landing + waiting, name);
      if name in uncalled {
        var c;
        c, late := CallsOne(proc, slots[name], w, t, name);
        TierMoves(t.(lost := lost), name, c, false);
        assert landing + waiting + {name} == landing + {name} + waiting;
        log' := log + [Called(name)];
        uncalled', landing', call' := uncalled - {name}, landing + {name}, call[name := c];
      } else if name in landing {
        var waits := LandsOne(proc, slots[name], w, t, name, call[name]);
        TierMoves(t, name, 0, waits);
        landing' := landing - {name};
        if waits {
          assert landing - {name} + (waiting + {name}) == landing + waiting;
          waiting' := waiting + {name};
        } else {
          assert landing + waiting - {name} == landing - {name} + waiting;
          log' := log + [Returned(name)];
        }
      } else {
        ReturnsOne(proc, slots[name], w, t, name, call[name], name in stuck);
        TierMoves(t, name, 0, false);
        assert landing + waiting - {name} == landing + (waiting - {name});
        log' := log + [Returned(name)];
        waiting' := waiting - {name};
      }
    }

    /** The places of the programs of names. */
    ghost function Places(names: set<string>): set<nat>
      reads this`slots
    {
      set n | n in names && n in slots :: slots[n]
    }

    /**
     * stopAllProcesses: the Stop calls of one tier, in whatever order they start and return, while other things
     * happen. stuck are the programs whose Stop gives up on a child that does not die, late those whose Stop begins
     * between a cancel check and the restart.
     */
    method StopTier(names: seq<string>, stuck: set<string>, events: seq<(Process, Act)>)
      returns (log: seq<StopEvent>, late: set<string>)
      requires Valid() && NoStarts(Now()) && Elements(names) <= processes.Keys
      requires forall e :: e in events ==> e.0 in objects && CallOf(e.1).None?
      modifies objects, this`history, this`inflight, this`lost
      ensures Valid() && NoStarts(Now())
      ensures StopsEach(log, Elements(names))
      ensures late <= Elements(names) && lost == old(lost) + Places(late)
      ensures forall n :: n in Elements(names) ==> Ended(Now(), lost, n, stuck)
      ensures |Now().objs| == |old(Now()).objs| && forall k: nat :: RestsIn(old(Now()), k) ==> RestsIn(Now(), k)
    {
      ghost var w := Now();
      log, late := [], {};
      var uncalled, landing, waiting := Elements(names), {}, {};
      var call: map<string, nat> := map[];
      var next := 0;
      hide *;
      StopsNone(Elements(names));
      assert landing + waiting == {};
      TierStarts(Elements(names), stuck);
      NoPlaces(late);
      while uncalled + landing + waiting != {}
        invariant 0 <= next <= |events| && Valid()
        invariant TierSoFar(w, Tier(Elements(names), stuck, lost, uncalled, landing, waiting, call))
        invariant StopsSoFar(log, Elements(names), uncalled, landing + waiting)
        invariant late <= Elements(names) && lost == old(lost) + Places(late)
        decreases |events| - next, uncalled, landing, waiting
      {
        ghost var t := Tier(Elements(names), stuck, lost, uncalled, landing, waiting, call);
        var happens := false;
        if next < |events| {
          if * { happens := true; }
        }
        if happens {
          var e := events[next];
          next := next + 1;
          if CanAct(e.0.View(), e.1) {
            ghost var k :| 0 <= k < |objects| && objects[k] == e.0;
            LostSame(w, t);
            HappensInTier(e.0, k, e.1, w, t);
            LostSame(w, t);
          }
        } else {
          var name :| name in uncalled + landing + waiting;
          var isLate;
          log, uncalled, landing, waiting, call, isLate :=
            StopOne(name, Elements(names), stuck, log, uncalled, landing, waiting, call, w);
          if isLate {
            OnePlace(late, name);
            late := late + {name};
          }
        }
      }
      assert uncalled == {} && landing + waiting == {};
      StopsAll(log, Elements(names));
      TierDone(w, Tier(Elements(names), stuck, lost, uncalled, landing, waiting, call));
    }

    lemma LostSame(w: World, t: Tier)
      requires TierSoFar(w, t)
      ensures t.lost == lost
    {
      hide TierOk, RestsIn;
    }

    lemma NoPlaces(late: set<string>)
      requires late == {}
      ensures lost + Places(late) == lost
    {
    }

    lemma OnePlace(late: set<string>, n: string)
      requires n in slots
      ensures Places(late + {n}) == Places(late) + {slots[n]}
    {
    }

    lemma TierStarts(names: set<string>, stuck: set<string>)
      requires Valid() && NoStarts(Now()) && names <= processes.Keys
      ensures TierSoFar(Now(), Tier(names, stuck, lost, names, {}, {}, map[]))
    {
      InvNow();
      hide InvBut, Shape, NoStarts, RestsIn, TierOk;
      TierBegins(Now(), names, stuck, lost);
    }

    lemma TierProgram(w: World, t: Tier, n: string)
      requires Valid() && TierSoFar(w, t) && n in t.uncalled + t.landing + t.waiting
      ensures n in processes && n in slots && slots[n] < |objects| && objects[slots[n]] == processes[n]
      ensures n in t.names && (n in t.landing || n in t.waiting ==> n in t.call)
      ensures t.uncalled !! t.landing !! t.waiting
    {
      RestWithin(Now(), t);
      if n in t.landing || n in t.waiting { GoesOn(Now(), t, n); }
      WithinNames(Now(), t, n);
      hide TierOk, InvBut, RestsIn;
    }

    lemma TierDone(w: World, t: Tier)
      requires TierSoFar(w, t) && t.uncalled + t.landing + t.waiting == {}
      ensures NoStarts(Now()) && (forall n :: n in t.names ==> Ended(Now(), lost, n, t.stuck))
      ensures |Now().objs| == |w.objs| && forall k: nat :: RestsIn(w, k) ==> RestsIn(Now(), k)
    {
      hide TierOk, RestsIn, Ended, NoStarts, Server.Now;
      TierEnds(Now(), t);
    }

    method ShutdownPlan() returns (tiers: seq<seq<string>>, ordered: bool)
      requires Valid()
      ensures Plan(DepsOf(config.programs), tiers, ordered)
      ensures ordered <==> !Cyclic(DepsOf(config.programs)) && ListedOnce(DepsOf(config.programs))
      ensures DepsOf(config.programs).Keys == processes.Keys
    {
      hide *;
      InvNow();
      SameNames();
      SameKeys(config.programs);
      var sorted := graph.Tiers();
      if sorted.Some? {
        InTiers(config.programs, sorted.value);
        return sorted.value, true;
      }
      var names := SortedProgramNames(config.programs);
      OneGroup(config.programs, names);
      return [names], false;
    }

    /**
     * stopAllProcesses, from the last tier to the first, once the reconciler and its actions have settled: events[i]
     * is what else may happen while tier i is stopped, stuck are the programs whose Stop gives up, and late those
     * whose Stop began between a cancel check and the restart.
     */
    method StopAllProcesses(stuck: set<string>, events: seq<seq<(Process, Act)>>)
      returns (log: seq<StopEvent>, late: set<string>)
      requires Valid() && NoStarts(Now())
      requires forall es, e :: es in events && e in es ==> e.0 in objects && CallOf(e.1).None?
      modifies objects, this`history, this`inflight, this`lost
      ensures Valid() && StopsEach(log, processes.Keys) && late <= processes.Keys
      ensures !Cyclic(DepsOf(config.programs)) && ListedOnce(DepsOf(config.programs)) ==>
                DependentsFirst(log, DepsOf(config.programs), processes.Keys)
      ensures lost == old(lost) + Places(late) && forall n :: n in processes ==> Ended(Now(), lost, n, stuck)
      ensures forall n :: n in processes && n !in stuck && slots[n] !in lost ==> !HasChild(processes[n].View())
      ensures forall k, i, j :: IsChild(Now(), k, i) && IsChild(Now(), k, j) ==> i == j
    {
      ghost var deps := DepsOf(config.programs);
      hide *;
      var tiers, ordered := ShutdownPlan();
      log, late := [], {};
      NoPlaces(late);
      ghost var stopped: set<string> := {};
      StopNothingYet(deps, tiers, ordered);
      var tier := |tiers|;
      while tier > 0
        invariant 0 <= tier <= |tiers| && deps.Keys == processes.Keys
        invariant Valid() && NoStarts(Now()) && ShutDown(deps, tiers, tier, stopped, log, ordered)
        invariant late <= processes.Keys && lost == old(lost) + Places(late)
        invariant forall n :: n in stopped ==> Ended(Now(), lost, n, stuck)
      {
        tier := tier - 1;
        ghost var before, had := Now(), lost;
        StoppedGrows(deps, tiers, tier, stopped, log, ordered);
        var meanwhile := if tier < |events| then events[tier] else [];
        assert meanwhile == [] || meanwhile in events;
        var more, lateNow := StopTier(tiers[tier], stuck, meanwhile);
        EndedStays(before, Now(), had, lost, stopped, stuck);
        ShutDownStep(deps, tiers, tier, stopped, log, more, ordered);
        TwoPlaces(late, lateNow);
        log, late := log + more, late + lateNow;
        stopped := stopped + Elements(tiers[tier]);
      }
      ShutDownDone(deps, tiers, stopped, log, ordered);
      NoneLeft(stuck);
      AtMostOneEach();
    }

    lemma TwoPlaces(a: set<string>, b: set<string>)
      ensures Places(a + b) == Places(a) + Places(b)
    {
    }

    lemma AtMostOneEach()
      requires Valid()
      ensures forall k, i, j :: IsChild(Now(), k, i) && IsChild(Now(), k, j) ==> i == j
    {
      forall k, i, j | IsChild(Now(), k, i) && IsChild(Now(), k, j) ensures i == j {
        hide InvBut;
        OneAtMost(Now(), lost, k, i, j);
      }
    }

    lemma NoneLeft(stuck: set<string>)
      requires Valid() && forall n :: n in processes ==> Ended(Now(), lost, n, stuck)
      ensures forall n :: n in processes ==> n in slots
      ensures forall n :: n in processes && n !in stuck && slots[n] !in lost ==> !HasChild(processes[n].View())
    {
      hide *;
      forall n | n in processes ensures n in slots { KnownProgram(n); }
      forall n | n in processes && n !in stuck && slots[n] !in lost ensures !HasChild(processes[n].View()) {
        KnownProgram(n);
        SeenAt(slots[n]);
        HasAt(n);
        EndedHasNoChild(Now(), lost, n, stuck);
      }
    }

    lemma HasAt(n: string)
      requires Valid() && n in processes && n in slots && slots[n] < |Now().objs|
      ensures Has(Now(), n) && Now().current[n] == slots[n] && ObjAt(Now(), n) == Now().objs[slots[n]]
    {
      hide InvBut, Server.Valid;
    }
  }
}
