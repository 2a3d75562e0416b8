/** A program the blocked walk gives up on is never started, however the daemon goes on. */
module Doomed {
  import opened Common
  import opened Configuration
  import opened Blocking
  import opened Lifecycle
  import opened Objects
  import opened Supervisor
  import opened Children
  import opened Chronicle

  predicate ByOperator(step: Step) {
    step.WantStart? || step.WantStop? || step.Swap? || (step.On? && step.act.CalledToStop?)
  }

  /** Every call on the object is over. */
  ghost predicate NoCalls(o: Obj) {
    forall c :: 0 <= c < |o.calls| ==> o.calls[c].stage.Done?
  }

  /** The object of n; programs that are not configured have none. */
  ghost predicate Has(w: World, n: string) {
    n in w.current && w.current[n] < |w.objs| && n in w.desired
  }

  function ObjOf(w: World, n: string): Obj
    requires Has(w, n)
  {
    w.objs[w.current[n]]
  }

  /** STOPPED, with nothing pending and no call under way. */
  ghost predicate HeldStill(w: World, n: string) {
    && Has(w, n) && ObjOf(w, n).proc.state == Stopped
    && NothingPending(ObjOf(w, n).proc) && NoCalls(ObjOf(w, n))
  }

  /** What dep is waited on for has not been reached. */
  ghost predicate NotReached(w: World, dep: Dependency) {
    Has(w, dep.name) ==>
      && ObjOf(w, dep.name).proc.state != Running
      && (dep.condition == Completed ==> !ObjOf(w, dep.name).proc.completed)
  }

  /** No run of dep can ever come again by itself. */
  ghost predicate GoneForGood(w: World, dep: Dependency) {
    Has(w, dep.name) ==>
      var o := ObjOf(w, dep.name);
      && NotReached(w, dep)
      && o.proc.state !in {Starting, Backoff} && NothingPending(o.proc) && !StartPending(o.calls)
      && (o.proc.state == Stopped ==> w.desired[dep.name] == WantStopped)
      && (!NoCalls(o) ==> w.desired[dep.name] == WantStopped)
  }

  ghost predicate KeepsOut(w: World, dep: Dependency, path: set<string>) {
    GoneForGood(w, dep) || (dep.name in path && NotReached(w, dep))
  }

  /** n is held still and one of its dependencies keeps it so. */
  ghost predicate Stuck(w: World, n: string, path: set<string>) {
    && HeldStill(w, n) && n in w.programs
    && exists dep :: dep in w.programs[n].dependsOn && KeepsOut(w, dep, path)
  }

  ghost predicate AllStuck(w: World, path: set<string>) {
    forall n :: n in path ==> Stuck(w, n, path)
  }

  lemma KeptOutUnsatisfied(w: World, n: string, path: set<string>)
    requires Shape(w) && Stuck(w, n, path)
    ensures !DependenciesSatisfied(Snap(w), n)
  {
    var dep :| dep in w.programs[n].dependsOn && KeepsOut(w, dep, path);
    assert dep in DependenciesOf(Snap(w), n);
    hide NothingPending, StartPending, NoCalls;
    assert !Satisfied(Snap(w), dep);
  }

  /** A step other than one on k leaves the object of k alone, and no step but a command touches slots and wishes. */
  lemma SlotsStay(w: World, step: Step)
    requires Enabled(w, step) && !ByOperator(step)
    ensures var w' := Apply(w, step);
      w'.programs == w.programs && w'.current == w.current && w'.desired == w.desired && |w'.objs| == |w.objs|
  {
    hide CanAct, Next, NewEvents, Clears, DependenciesSatisfied, Snap;
  }

  /** Held still, with unsatisfied dependencies, nothing happens at all. */
  lemma HeldStep(w: World, step: Step, n: string)
    requires Shape(w) && Enabled(w, step) && !ByOperator(step)
    requires HeldStill(w, n) && !DependenciesSatisfied(Snap(w), n)
    ensures HeldStill(Apply(w, step), n)
    ensures ObjOf(Apply(w, step), n).proc.completed == ObjOf(w, n).proc.completed
  {
    var k := w.current[n];
    SlotsStay(w, step);
    ObjectsKept(w, step, k);
    OwnName(w, n);
    if step.On? && step.obj == k {
      StillUnderActs(ObjOf(w, n), step.act);
    } else if step.Visit? && w.current[step.name] == k {
      VisitCases(w, n);
    }
    hide CanAct, Next, NoCalls, NothingPending, Shape;
  }

  lemma StillUnderActs(o: Obj, act: Act)
    requires o.proc.state == Stopped && NothingPending(o.proc) && NoCalls(o) && CanAct(o, act) && !act.CalledToStop?
    ensures Next(o, act).proc.state == Stopped && NothingPending(Next(o, act).proc) && NoCalls(Next(o, act))
    ensures Next(o, act).proc.completed == o.proc.completed
    ensures !act.StartRuns?
  {
  }

  lemma GoneUnderActs(o: Obj, act: Act)
    requires CanAct(o, act) && o.proc.state !in {Starting, Running, Backoff}
    requires NothingPending(o.proc) && !StartPending(o.calls) && !act.CalledToStop?
    ensures var next := Next(o, act);
      && next.proc.state !in {Starting, Running, Backoff} && next.proc.completed == o.proc.completed
      && NothingPending(next.proc) && !StartPending(next.calls)
      && (next.proc.state == Stopped && o.proc.state != Stopped ==> !NoCalls(o))
      && (!NoCalls(next) ==> !NoCalls(o))
  {
    assert !act.StartRuns?;
    NoStartAdded(o, act);
    NextQuiet(o, act);
    if NoCalls(o) { assert Next(o, act).calls == o.calls; }
    hide NothingPending, StartPending;
  }

  lemma GoneStep(w: World, step: Step, dep: Dependency)
    requires Shape(w) && Enabled(w, step) && !ByOperator(step) && GoneForGood(w, dep)
    ensures GoneForGood(Apply(w, step), dep)
  {
    SlotsStay(w, step);
    if Has(w, dep.name) {
      var k := w.current[dep.name];
      OwnName(w, dep.name);
      ObjectsKept(w, step, k);
      hide StartPending, NoCalls, NothingPending, CanAct, Next, NewEvents, Clears, VisitSpec;
      if step.On? && step.obj == k {
        GoneUnderActs(w.objs[k], step.act);
      } else if step.Visit? && w.current[step.name] == k {
        VisitCases(w, step.name);
        StopCallAdds(w.objs[k]);
      }
    }
  }

  lemma StopCallAdds(o: Obj)
    requires !StartPending(o.calls)
    ensures !StartPending(WithCall(o, StopCalled).calls)
  {
    var calls := WithCall(o, StopCalled).calls;
    forall c | 0 <= c < |calls| ensures !calls[c].stage.StartQueued? {
      if c < |o.calls| { assert !o.calls[c].stage.StartQueued?; }
    }
  }

  /** Nothing happens to a program held still, so what it was waited on for is still not reached. */
  lemma StillNotReached(w: World, step: Step, dep: Dependency)
    requires Has(w, dep.name) && NotReached(w, dep) && Enabled(w, step) && !ByOperator(step)
    requires HeldStill(Apply(w, step), dep.name)
    requires ObjOf(Apply(w, step), dep.name).proc.completed == ObjOf(w, dep.name).proc.completed
    ensures NotReached(Apply(w, step), dep)
  {
  }

  lemma StuckStep(w: World, step: Step, path: set<string>)
    requires Shape(w) && AllStuck(w, path) && Enabled(w, step) && !ByOperator(step)
    ensures AllStuck(Apply(w, step), path)
  {
    var w' := Apply(w, step);
    SlotsStay(w, step);
    hide Apply, Enabled, Shape, GoneForGood, HeldStill, NotReached;
    forall n | n in path ensures Stuck(w', n, path) {
      assert Stuck(w, n, path);
      KeptOutUnsatisfied(w, n, path);
      HeldStep(w, step, n);
      var dep :| dep in w.programs[n].dependsOn && KeepsOut(w, dep, path);
      if GoneForGood(w, dep) {
        GoneStep(w, step, dep);
      } else {
        assert Stuck(w, dep.name, path);
        KeptOutUnsatisfied(w, dep.name, path);
        HeldStep(w, step, dep.name);
        HeldHas(w, dep.name);
        StillNotReached(w, step, dep);
      }
      assert KeepsOut(w', dep, path);
    }
  }

  lemma HeldHas(w: World, n: string)
    requires HeldStill(w, n)
    ensures Has(w, n)
  {
  }

  /** No start attempt of the object of a program of path is among the events. */
  ghost predicate NoneStarted(w: World, events: seq<Event>, path: set<string>) {
    forall e, n :: e in events && e.StartAttempt? && n in path && n in w.current ==> w.current[n] != e.obj
  }

  lemma HeldStartsNothing(o: Obj, k: nat, act: Act)
    requires NothingPending(o.proc) && NoCalls(o) && CanAct(o, act)
    ensures forall e :: e in NewEvents(k, o, act) ==> !e.StartAttempt?
  {
  }

  lemma StuckStartsNothing(w: World, step: Step, path: set<string>) returns (es: seq<Event>)
    requires AllStuck(w, path) && Enabled(w, step) && !ByOperator(step)
    ensures Apply(w, step).history == w.history + es && NoneStarted(w, es, path)
  {
    var k;
    k, es := StepEvents(w, step);
    hide Apply, Enabled, NewEvents, CanAct, NothingPending, NoCalls, KeepsOut;
    forall n | n in path && n in w.current && w.current[n] == k && es != []
      ensures forall e :: e in es ==> !e.StartAttempt?
    {
      assert Stuck(w, n, path);
      StepIsAct(w, step);
      HeldStartsNothing(w.objs[k], k, step.act);
    }
  }

  lemma StepIsAct(w: World, step: Step)
    requires Enabled(w, step) && step.On?
    ensures step.obj < |w.objs| && CanAct(w.objs[step.obj], step.act)
  {
  }

  lemma {:induction false} StuckForever(w: World, steps: seq<Step>, path: set<string>)
    requires Shape(w) && AllStuck(w, path) && CanRun(w, steps)
    requires forall step :: step in steps ==> !ByOperator(step)
    ensures AllStuck(After(w, steps), path) && After(w, steps).current == w.current
    ensures w.history <= After(w, steps).history
    ensures NoneStarted(w, After(w, steps).history[|w.history|..], path)
    decreases |steps|
  {
    hide Shape, Apply, Enabled, AllStuck, ByOperator;
    if steps != [] {
      var w' := Apply(w, steps[0]);
      assert steps[0] in steps;
      ShapeStep(w, steps[0]);
      SlotsStay(w, steps[0]);
      StuckStep(w, steps[0], path);
      var es := StuckStartsNothing(w, steps[0], path);
      StuckForever(w', steps[1..], path);
      SuffixOf(w.history, es, After(w, steps).history);
    }
  }

  lemma SuffixOf(a: seq<Event>, b: seq<Event>, h: seq<Event>)
    requires a + b <= h
    ensures a <= h && h[|a|..] == b + h[|a + b|..]
  {
    assert h == a + b + h[|a + b|..];
  }

  // ---------------------------------------------------------------- from the walk

  /** The hopeless dependency at the end of the path has nothing pending. */
  ghost predicate NothingInFlight(w: World, d: string) {
    Has(w, d) ==> NoCalls(ObjOf(w, d)) && NothingPending(ObjOf(w, d).proc)
  }

  lemma NoCallsNoStart(o: Obj)
    requires NoCalls(o)
    ensures !StartPending(o.calls)
  {
  }

  lemma HopelessIsGone(w: World, dep: Dependency, reason: Reason)
    requires Shape(w) && Judge(Snap(w), dep) == Hopeless(reason) && NothingInFlight(w, reason.dep)
    ensures GoneForGood(w, dep)
  {
    if Has(w, dep.name) {
      ShapeAt(w, dep.name);
      assert ViewOf(w, dep.name) == View(ObjOf(w, dep.name).proc);
      hide NoCalls, NothingPending, StartPending, Shape;
      NoCallsNoStart(ObjOf(w, dep.name));
    }
  }

  lemma PendingNotReached(w: World, dep: Dependency)
    requires Judge(Snap(w), dep) == Pending
    ensures NotReached(w, dep)
  {
    if Has(w, dep.name) { assert ViewOf(w, dep.name) == View(ObjOf(w, dep.name).proc); }
  }

  lemma PathIsStuck(w: World, path: seq<string>, reason: Reason)
    requires Shape(w) && LeadsTo(Snap(w), path, reason)
    requires forall n :: n in path ==> HeldStill(w, n)
    requires NothingInFlight(w, reason.dep)
    ensures AllStuck(w, Elements(path))
  {
    hide Judge, GoneForGood, NothingInFlight, NotReached, HeldStill;
    var s := Snap(w);
    forall i | 0 <= i < |path| ensures Stuck(w, path[i], Elements(path)) {
      assert HeldStill(w, path[i]);
      HeldHas(w, path[i]);
      ShapeAt(w, path[i]);
      assert DependenciesOf(s, path[i]) == w.programs[path[i]].dependsOn;
      if i == |path| - 1 {
        assert HopelessAt(s, path[i], reason);
        var dep :| dep in DependenciesOf(s, path[i]) && Judge(s, dep) == Hopeless(reason);
        HopelessIsGone(w, dep, reason);
        assert KeepsOut(w, dep, Elements(path));
      } else {
        assert PendingLink(s, path, i);
        var dep :| dep in DependenciesOf(s, path[i]) && dep.name == path[i + 1] && Judge(s, dep) == Pending;
        PendingNotReached(w, dep);
        assert KeepsOut(w, dep, Elements(path));
      }
    }
  }

  /**
   * When the walk finds a path to a hopeless dependency, every program on it is STOPPED with nothing under way and
   * nothing is pending on the hopeless one, no later run without operator commands and reloads starts the program.
   */
  lemma BlockedForever(w: World, path: seq<string>, reason: Reason, steps: seq<Step>)
    requires Shape(w) && LeadsTo(Snap(w), path, reason)
    requires forall n :: n in path ==> HeldStill(w, n)
    requires NothingInFlight(w, reason.dep)
    requires CanRun(w, steps) && forall step :: step in steps ==> !ByOperator(step)
    ensures w.history <= After(w, steps).history && path[0] in w.current
    ensures forall e :: e in After(w, steps).history[|w.history|..] && e.StartAttempt? ==> e.obj != w.current[path[0]]
    ensures HeldStill(After(w, steps), path[0])
  {
    hide Shape, CanRun, After, HeldStill, NothingInFlight, KeepsOut;
    PathIsStuck(w, path, reason);
    StuckForever(w, steps, Elements(path));
    assert path[0] in Elements(path) && path[0] in path;
    assert Stuck(After(w, steps), path[0], Elements(path));
    HeldHas(w, path[0]);
  }
}
