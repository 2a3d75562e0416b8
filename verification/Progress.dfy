/**
 * What the daemon gets done: from every world an orderly run can reach there is a run that settles an unwanted program,
 * brings up a wanted one, completes a one-off, and, from a fresh start, brings up everything.
 */
module Progress {
  import opened Common
  import opened Dependencies
  import Graphs = DependencyGraph
  import opened Configuration
  import opened Blocking
  import opened Lifecycle
  import opened Objects
  import opened Supervisor
  import opened Children
  import opened Chronicle
  import opened Runs

  // ---------------------------------------------------------------- what a visit does, from states and wishes

  /** What dep is waited on for has been reached. */
  ghost predicate Reached(w: World, dep: Dependency) {
    && dep.name in w.current && w.current[dep.name] < |w.objs|
    && var p := w.objs[w.current[dep.name]].proc;
       match dep.condition
       case Started => p.state == Running
       case Healthy => p.state == Running && p.health == CheckHealthy
       case Completed => p.completed
  }

  /** One more call, held, is under way on the object of n, which is busy; everything else is as it was. */
  ghost predicate Queued(w: World, v: World, n: string, stage: Stage)
    requires n in w.current && w.current[n] < |w.objs|
  {
    var k := w.current[n];
    v == w.(objs := w.objs[k := w.objs[k].(calls := w.objs[k].calls + [Call(stage, true)])], busy := w.busy + {n})
  }

  lemma ReachedIsSatisfied(w: World, n: string)
    requires Shape(w) && n in w.current
    ensures DependenciesSatisfied(Snap(w), n) <==> forall dep :: dep in w.programs[n].dependsOn ==> Reached(w, dep)
  {
    ShapeAt(w, n);
    assert DependenciesOf(Snap(w), n) == w.programs[n].dependsOn;
    forall dep | dep in w.programs[n].dependsOn ensures Satisfied(Snap(w), dep) <==> Reached(w, dep) {
      if dep.name in w.current {
        ShapeAt(w, dep.name);
        assert ViewOf(w, dep.name) == View(w.objs[w.current[dep.name]].proc);
      }
    }
  }

  /** What a look at the server shows of a program: state, latch, health and last exit code of its object. */
  lemma LookShows(w: World, n: string)
    requires Shape(w) && n in w.current
    ensures w.current[n] < |w.objs| && n in Snap(w).processes && Snap(w).programs == w.programs
    ensures var seen, p := Snap(w).processes[n], w.objs[w.current[n]].proc;
      && seen.state == p.state && seen.completed == p.completed && seen.health == p.health
      && seen.exitCode == p.exitCode
  {
    ShapeAt(w, n);
  }

  lemma VisitSeen(w: World, n: string)
    requires Shape(w) && n in w.current
    ensures Enabled(w, Visit(n)) && w.current[n] < |w.objs| && n in w.desired && Apply(w, Visit(n)) == VisitSpec(w, n)
  {
    hide VisitSpec;
  }

  /** An idle program nobody wants is told to stop, unless it is STOPPED or STOPPING. */
  lemma VisitStops(w: World, n: string)
    requires Shape(w) && n in w.current && n !in w.busy && w.desired[n] == WantStopped
    requires w.objs[w.current[n]].proc.state in {Starting, Running, Backoff, Exited, Fatal}
    ensures Enabled(w, Visit(n)) && Queued(w, Apply(w, Visit(n)), n, StopCalled)
  {
    VisitSeen(w, n);
    hide DependenciesSatisfied, Snap;
  }

  /** An idle, wanted, STOPPED program whose dependencies have reached what it waits for is started. */
  lemma VisitStarts(w: World, n: string)
    requires Shape(w) && n in w.current && n !in w.busy && w.desired[n] == WantRunning
    requires w.objs[w.current[n]].proc.state == Stopped
    requires forall dep :: dep in w.programs[n].dependsOn ==> Reached(w, dep)
    ensures Enabled(w, Visit(n)) && Queued(w, Apply(w, Visit(n)), n, StartQueued)
  {
    VisitSeen(w, n);
    ReachedIsSatisfied(w, n);
    hide DependenciesSatisfied, Snap;
  }

  /** A visit that leaves an idle program alone found nothing to do. */
  lemma VisitIdles(w: World, n: string)
    requires Shape(w) && n in w.current && n !in w.busy && Enabled(w, Visit(n)) && Apply(w, Visit(n)) == w
    ensures var state := w.objs[w.current[n]].proc.state;
      if w.desired[n] == WantStopped then state in {Stopped, Stopping}
      else state != Stopped || exists dep :: dep in w.programs[n].dependsOn && !Reached(w, dep)
  {
    if w.desired[n] == WantStopped {
      if w.objs[w.current[n]].proc.state !in {Stopped, Stopping} { VisitStops(w, n); }
    } else if w.objs[w.current[n]].proc.state == Stopped
              && forall dep :: dep in w.programs[n].dependsOn ==> Reached(w, dep) {
      VisitStarts(w, n);
    }
    hide Shape, Reached;
  }

  /** The timer of startsecs makes RUNNING of STARTING, and nothing of anything else. */
  lemma TimerPromotes(o: Obj, r: nat)
    requires CanAct(o, StartSecs(r))
    ensures Next(o, StartSecs(r)) == if o.proc.state == Starting then o.(proc := o.proc.(state := Running)) else o
  {
  }

  // ---------------------------------------------------------------- an unwanted program

  /** v is w but for the object at k, whose program is as busy as before. */
  ghost predicate But(w: World, v: World, k: nat) {
    && v.programs == w.programs && v.current == w.current && v.desired == w.desired && v.busy == w.busy
    && |v.objs| == |w.objs| && (forall i :: 0 <= i < |w.objs| && i != k ==> v.objs[i] == w.objs[i])
    && k < |w.objs| && v.objs[k].name == w.objs[k].name && v.objs[k].program == w.objs[k].program
  }

  lemma VisitLeads(w: World, n: string, stage: Stage) returns (v: World)
    requires Inv(w) && Shape(w) && n in w.current && w.current[n] < |w.objs|
    requires Enabled(w, Visit(n)) && Queued(w, Apply(w, Visit(n)), n, stage)
    ensures v == Apply(w, Visit(n)) && Leads(w, v) && Inv(v)
  {
    hide Inv, Apply, Enabled, Leads, Queued, Shape;
    LeadsNowhere(w);
    LeadsOn(w, w, Visit(n));
    OrderlyVisit(w, n);
    InvStep(w, Visit(n));
    v := Apply(w, Visit(n));
  }

  lemma OrderlyVisit(w: World, n: string)
    requires Enabled(w, Visit(n))
    ensures Orderly(w, Visit(n))
  {
  }

  /** The stop of an object at rest state: it lands at once. */
  lemma StopOfIdle(o: Obj)
    requires ObjOk(o) && o.proc.state in {Exited, Fatal} && !InGap(o.proc)
    ensures var c, q := |o.calls|, o.(calls := o.calls + [Call(StopCalled, true)]);
      && CanAct(q, StopMarks(c)) && !SlipsIn(q, StopMarks(c)) && !Clears(q, StopMarks(c))
      && var q1 := Next(q, StopMarks(c));
         && CanAct(q1, StopLands(c)) && !SlipsIn(q1, StopLands(c)) && Clears(q1, StopLands(c))
         && Next(q1, StopLands(c)).proc.state == Stopped
  {
  }

  /** A call is queued on the object of n by a visit. */
  lemma AfterVisit(w: World, n: string, stage: Stage)
    requires Shape(w) && n in w.current && w.current[n] < |w.objs| && Queued(w, Apply(w, Visit(n)), n, stage)
    requires Enabled(w, Visit(n))
    ensures var k, v := w.current[n], Apply(w, Visit(n));
      && v.programs == w.programs && v.current == w.current && v.desired == w.desired && v.busy == w.busy + {n}
      && |v.objs| == |w.objs| && (forall i :: 0 <= i < |w.objs| && i != k ==> v.objs[i] == w.objs[i])
      && v.objs[k] == w.objs[k].(calls := w.objs[k].calls + [Call(stage, true)]) && w.objs[k].name == n
  {
    ShapeAt(w, n);
    hide Apply, Enabled, Shape;
  }

  lemma IdleSettles(w: World, n: string) returns (v: World)
    requires Inv(w) && n in w.current && n !in w.busy && w.desired[n] == WantStopped
    requires w.objs[w.current[n]].proc.state in {Exited, Fatal} && !InGap(w.objs[w.current[n]].proc)
    ensures Leads(w, v) && Inv(v) && But(w, v, w.current[n]) && v.objs[w.current[n]].proc.state == Stopped
  {
    var k := w.current[n];
    var c := |w.objs[k].calls|;
    UsedOk(w, n);
    StopOfIdle(w.objs[k]);
    VisitStops(w, n);
    AfterVisit(w, n, StopCalled);
    hide *;
    var v1 := VisitLeads(w, n, StopCalled);
    var v2 := OneSafeAct(w, v1, k, StopMarks(c));
    IsAt(v1, v2, k);
    v := OneSafeAct(w, v2, k, StopLands(c));
    ButFor(w, v1, v2, v, k, n);
  }

  /** Two acts after a visit, the last of which clears the mark. */
  lemma ButFor(w: World, v1: World, v2: World, v: World, k: nat, n: string)
    requires n !in w.busy && k < |w.objs| && w.objs[k].name == n
    requires v1.programs == w.programs && v1.current == w.current && v1.desired == w.desired && v1.busy == w.busy + {n}
    requires |v1.objs| == |w.objs| && (forall i :: 0 <= i < |w.objs| && i != k ==> v1.objs[i] == w.objs[i])
    requires v1.objs[k].name == n && v1.objs[k].program == w.objs[k].program
    requires OnlyAt(v1, v2, k) && v2.busy == v1.busy && OnlyAt(v2, v, k) && v.busy == v2.busy - {n}
    ensures But(w, v, k)
  {
  }

  /** A restart that fails ends the gap. */
  lemma GapFails(o: Obj, r: nat)
    requires ObjOk(o) && r < |o.proc.runs| && o.proc.runs[r].phase.Restarting?
    ensures CanAct(o, Restarts(r, false)) && !SlipsIn(o, Restarts(r, false)) && !Clears(o, Restarts(r, false))
    ensures Next(o, Restarts(r, false)).proc.state == Fatal && !InGap(Next(o, Restarts(r, false)).proc)
  {
    assert o.proc.runs[r].Wakeable();
    forall i | 0 <= i < r ensures !o.proc.runs[i].phase.Restarting? {
      if o.proc.runs[i].phase.Restarting? { assert o.proc.runs[i].Wakeable(); }
    }
  }

  lemma LeavesGap(w: World, n: string) returns (v: World)
    requires Inv(w) && n in w.current && InGap(w.objs[w.current[n]].proc)
    ensures Leads(w, v) && Inv(v) && But(w, v, w.current[n]) && n in v.current
    ensures v.objs[w.current[n]].proc.state == Fatal && !InGap(v.objs[w.current[n]].proc)
  {
    var k := w.current[n];
    var r :| 0 <= r < |w.objs[k].proc.runs| && w.objs[k].proc.runs[r].phase.Restarting?;
    UsedOk(w, n);
    GapFails(w.objs[k], r);
    hide *;
    LeadsNowhere(w);
    v := OneSafeAct(w, w, k, Restarts(r, false));
    ButOnce(w, v, k);
  }

  lemma ButOnce(w: World, v: World, k: nat)
    requires OnlyAt(w, v, k) && v.busy == w.busy
    ensures But(w, v, k)
  {
  }

  lemma ButTwice(w: World, v: World, u: World, k: nat)
    requires But(w, v, k) && But(v, u, k)
    ensures But(w, u, k)
  {
  }

  /** The stop of a program that is up: its child exits, and the verdict says STOPPED. */
  lemma StopOfRunning(o: Obj)
    requires ObjOk(o) && o.proc.state in {Starting, Running}
    ensures var c, r, q := |o.calls|, |o.proc.runs| - 1, o.(calls := o.calls + [Call(StopCalled, true)]);
      && CanAct(q, StopMarks(c)) && !SlipsIn(q, StopMarks(c)) && !Clears(q, StopMarks(c))
      && var q1 := Next(q, StopMarks(c));
         && CanAct(q1, StopLands(c)) && !SlipsIn(q1, StopLands(c)) && !Clears(q1, StopLands(c))
         && StopsOver(Next(q1, StopLands(c)), c)
  {
    assert o.proc.runs[|o.proc.runs| - 1].Active();
  }

  /** STOPPING, and stop c, which holds the mark, waits for the run that is up or to be judged. */
  predicate StopsOver(o: Obj, c: nat) {
    var r := |o.proc.runs| - 1;
    && r >= 0 && o.proc.runs[r].Active() && o.proc.state == Stopping && o.proc.stoppedExternally
    && c < |o.calls| && o.calls[c].held && o.calls[c].stage.StopWaiting? && o.calls[c].stage.awaited == Some(r)
  }

  lemma ExitsOver(o: Obj, c: nat)
    requires StopsOver(o, c) && o.proc.runs[|o.proc.runs| - 1].phase.Up?
    ensures var act := ChildExits(|o.proc.runs| - 1, ExitedWith(0), false);
      && CanAct(o, act) && !SlipsIn(o, act) && !Clears(o, act) && StopsOver(Next(o, act), c)
      && Next(o, act).proc.runs[|o.proc.runs| - 1].phase.Reaped?
  {
  }

  lemma VerdictEnds(o: Obj, c: nat)
    requires StopsOver(o, c) && o.proc.runs[|o.proc.runs| - 1].phase.Reaped?
    ensures var act := GivesVerdict(|o.proc.runs| - 1);
      && CanAct(o, act) && !SlipsIn(o, act) && !Clears(o, act)
      && var q := Next(o, act);
         && CanAct(q, StopReturns(c, false)) && !SlipsIn(q, StopReturns(c, false)) && Clears(q, StopReturns(c, false))
         && Next(q, StopReturns(c, false)).proc.state == Stopped
  {
  }

  lemma RunningSettles(w: World, n: string) returns (v: World)
    requires Inv(w) && n in w.current && n !in w.busy && w.desired[n] == WantStopped
    requires w.objs[w.current[n]].proc.state in {Starting, Running}
    ensures Leads(w, v) && Inv(v) && But(w, v, w.current[n]) && v.objs[w.current[n]].proc.state == Stopped
  {
    var k := w.current[n];
    var c := |w.objs[k].calls|;
    UsedOk(w, n);
    StopOfRunning(w.objs[k]);
    VisitStops(w, n);
    AfterVisit(w, n, StopCalled);
    hide *;
    var v1 := VisitLeads(w, n, StopCalled);
    var v2 := OneSafeAct(w, v1, k, StopMarks(c));
    IsAt(v1, v2, k);
    var v3 := OneSafeAct(w, v2, k, StopLands(c));
    OnlyAtTwice(v1, v2, v3, k);
    IsAt(v1, v3, k);
    var v4 := Judged(w, v3, k, c);
    OnlyAtTwice(v1, v3, v4, k);
    IsAt(v1, v4, k);
    v := OneSafeAct(w, v4, k, StopReturns(c, false));
    ButFor(w, v1, v4, v, k, n);
  }

  /** The run a stop waits for comes to its end. */
  lemma Judged(w: World, v: World, k: nat, c: nat) returns (v': World)
    requires Leads(w, v) && Inv(v) && k < |v.objs| && StopsOver(v.objs[k], c)
    ensures Leads(w, v') && Inv(v') && OnlyAt(v, v', k) && v'.busy == v.busy && k < |v'.objs|
    ensures CanAct(v'.objs[k], StopReturns(c, false)) && !SlipsIn(v'.objs[k], StopReturns(c, false))
    ensures Clears(v'.objs[k], StopReturns(c, false))
    ensures Next(v'.objs[k], StopReturns(c, false)).proc.state == Stopped
  {
    var r := |v.objs[k].proc.runs| - 1;
    UpOrReaped(v.objs[k], c);
    hide *;
    var v1 := v;
    OnlyAtSelf(v, k);
    if v.objs[k].proc.runs[r].phase.Up? {
      ExitsOver(v.objs[k], c);
      v1 := OneSafeAct(w, v, k, ChildExits(r, ExitedWith(0), false));
      IsAt(v, v1, k);
      SameCount(v.objs[k], ChildExits(r, ExitedWith(0), false));
    }
    VerdictEnds(v1.objs[k], c);
    v' := OneSafeAct(w, v1, k, GivesVerdict(r));
    OnlyAtTwice(v, v1, v', k);
    IsAt(v, v', k);
  }

  lemma UpOrReaped(o: Obj, c: nat)
    requires StopsOver(o, c)
    ensures |o.proc.runs| > 0
    ensures var phase := o.proc.runs[|o.proc.runs| - 1].phase; phase.Up? || phase.Reaped?
  {
  }

  lemma OnlyAtSelf(v: World, k: nat)
    requires k < |v.objs|
    ensures OnlyAt(v, v, k)
  {
  }

  lemma SameCount(o: Obj, act: Act)
    requires CanAct(o, act) && act.ChildExits?
    ensures |Next(o, act).proc.runs| == |o.proc.runs|
  {
  }

  /**
   * A program nobody wants can always be settled, whether it is up, waits to be restarted, or has ended: the reconciler
   * tells it to stop, and after that it has no child and nothing that leads to one. Only STOPPING it waits out.
   */
  lemma UnwantedSettles(w: World, n: string) returns (v: World)
    requires Inv(w) && n in w.current && n !in w.busy && w.desired[n] == WantStopped
    requires w.objs[w.current[n]].proc.state != Stopping
    ensures Leads(w, v) && Inv(v) && Settled(v, n) && But(w, v, w.current[n])
    ensures v.objs[w.current[n]].proc.state == Stopped
  {
    var k := w.current[n];
    UsedOk(w, n);
    assert w.objs[k].proc.state != Backoff;
    hide ObjOk, Leads, Inv, InGap;
    if w.objs[k].proc.state == Stopped {
      v := w;
      LeadsNowhere(w);
      OnlyAtSelf(w, k);
    } else if w.objs[k].proc.state in {Starting, Running} {
      v := RunningSettles(w, n);
    } else {
      var v1 := w;
      LeadsNowhere(w);
      OnlyAtSelf(w, k);
      if InGap(w.objs[k].proc) { v1 := LeavesGap(w, n); }
      v := IdleSettles(v1, n);
      LeadsFurther(w, v1, v);
      ButTwice(w, v1, v, k);
    }
    StoppedIsSettled(v, n);
  }

  // ---------------------------------------------------------------- a wanted program

  /** STARTING with a child and nothing else about it. */
  predicate Fresh(p: Proc) {
    var r := |p.runs| - 1;
    && r >= 0 && p.runs[r] == Run(Up, true, true) && p.state == Starting && !p.stoppedExternally && !p.completed
  }

  /** RUNNING with a child, healthy if that is checked. */
  predicate IsUp(o: Obj) {
    var r := |o.proc.runs| - 1;
    && r >= 0 && o.proc.runs[r] == Run(Up, true, true) && o.proc.state == Running && !o.proc.stoppedExternally
    && (o.program.hasHealthCheck ==> o.proc.health == CheckHealthy)
  }

  ghost predicate CallsOver(o: Obj) {
    forall c :: 0 <= c < |o.calls| ==> o.calls[c].stage.Done?
  }

  lemma StartOfStopped(o: Obj)
    requires o.proc.state == Stopped && CallsOver(o)
    ensures var c, q := |o.calls|, o.(calls := o.calls + [Call(StartQueued, true)]);
      && CanAct(q, StartRuns(c, true)) && !SlipsIn(q, StartRuns(c, true)) && Clears(q, StartRuns(c, true))
      && var q1 := Next(q, StartRuns(c, true));
         && Fresh(q1.proc) && q1.program == o.program && (o.program.hasHealthCheck ==> q1.proc.health == CheckStarting)
         && CallsOver(q1)
  {
    var q := o.(calls := o.calls + [Call(StartQueued, true)]);
    assert forall i :: 0 <= i < |q.calls| ==> !LandsStopped(q.calls[i]);
  }

  lemma FreshGetsUp(o: Obj)
    requires Fresh(o.proc) && (o.program.hasHealthCheck ==> o.proc.health == CheckStarting)
    ensures var act := StartSecs(|o.proc.runs| - 1);
      && CanAct(o, act) && !SlipsIn(o, act) && !Clears(o, act)
      && var q := Next(o, act);
         && q.program == o.program && q.calls == o.calls
         && if o.program.hasHealthCheck then
              && CanAct(q, Probed(CheckHealthy)) && !SlipsIn(q, Probed(CheckHealthy))
              && !Clears(q, Probed(CheckHealthy))
              && IsUp(Next(q, Probed(CheckHealthy))) && Next(q, Probed(CheckHealthy)).calls == o.calls
            else IsUp(q)
  {
  }

  /**
   * A wanted, idle, STOPPED program whose dependencies have reached what it waits for can always be brought up: it is
   * RUNNING with a child, and healthy if it has a health check.
   */
  lemma WantedGetsUp(w: World, n: string) returns (v: World)
    requires Inv(w) && n in w.current && n !in w.busy && w.desired[n] == WantRunning
    requires w.objs[w.current[n]].proc.state == Stopped && CallsOver(w.objs[w.current[n]])
    requires forall dep :: dep in w.programs[n].dependsOn ==> Reached(w, dep)
    ensures Leads(w, v) && Inv(v) && But(w, v, w.current[n])
    ensures IsUp(v.objs[w.current[n]]) && CallsOver(v.objs[w.current[n]])
  {
    var k := w.current[n];
    var c := |w.objs[k].calls|;
    UsedOk(w, n);
    StartOfStopped(w.objs[k]);
    VisitStarts(w, n);
    AfterVisit(w, n, StartQueued);
    hide *;
    var v1 := VisitLeads(w, n, StartQueued);
    var v2 := OneSafeAct(w, v1, k, StartRuns(c, true));
    OnlyAtSelf(v1, k);
    ButFor(w, v1, v1, v2, k, n);
    IsAt(v1, v2, k);
    v := GetsUp(w, v2, k);
    ButTwice(w, v2, v, k);
  }

  lemma GetsUp(w: World, v: World, k: nat) returns (v': World)
    requires Leads(w, v) && Inv(v) && k < |v.objs| && Fresh(v.objs[k].proc) && CallsOver(v.objs[k])
    requires v.objs[k].program.hasHealthCheck ==> v.objs[k].proc.health == CheckStarting
    ensures Leads(w, v') && Inv(v') && But(v, v', k) && IsUp(v'.objs[k]) && CallsOver(v'.objs[k])
  {
    var r := |v.objs[k].proc.runs| - 1;
    FreshIs(v.objs[k]);
    FreshGetsUp(v.objs[k]);
    hide *;
    v' := OneSafeAct(w, v, k, StartSecs(r));
    ButOnce(v, v', k);
    IsAt(v, v', k);
    if v.objs[k].program.hasHealthCheck {
      var v1 := v';
      v' := OneSafeAct(w, v1, k, Probed(CheckHealthy));
      ButOnce(v1, v', k);
      ButTwice(v, v1, v', k);
      IsAt(v1, v', k);
    }
    CallsStayOver(v.objs[k], v'.objs[k]);
  }

  lemma FreshIs(o: Obj)
    requires Fresh(o.proc)
    ensures |o.proc.runs| > 0
  {
  }

  lemma CallsStayOver(o: Obj, q: Obj)
    requires CallsOver(o) && q.calls == o.calls
    ensures CallsOver(q)
  {
  }

  /** A program that is up can finish its work: with code 0, unless it is always restarted, it is EXITED for good. */
  lemma UpCompletes(o: Obj)
    requires IsUp(o) && o.program.autorestart != Always
    ensures var r, exit := |o.proc.runs| - 1, ChildExits(|o.proc.runs| - 1, ExitedWith(0), false);
      && CanAct(o, exit) && !SlipsIn(o, exit) && !Clears(o, exit)
      && var q := Next(o, exit);
         && CanAct(q, GivesVerdict(r)) && !SlipsIn(q, GivesVerdict(r)) && !Clears(q, GivesVerdict(r))
         && var p := Next(q, GivesVerdict(r)).proc;
            p.completed && p.state == Exited && p.runs[r].phase.Over? && |p.runs| == r + 1
  {
  }

  /** And so what waits for it to complete is reached. */
  lemma OneOffCompletes(w: World, n: string) returns (v: World)
    requires Inv(w) && n in w.current && n !in w.busy && w.desired[n] == WantRunning
    requires w.objs[w.current[n]].proc.state == Stopped && CallsOver(w.objs[w.current[n]])
    requires forall dep :: dep in w.programs[n].dependsOn ==> Reached(w, dep)
    requires w.programs[n].autorestart != Always
    ensures Leads(w, v) && Inv(v) && But(w, v, w.current[n])
    ensures v.objs[w.current[n]].proc.completed && v.objs[w.current[n]].proc.state == Exited
    ensures !HasChild(v.objs[w.current[n]])
  {
    var k := w.current[n];
    UsedOk(w, n);
    ShapeAt(w, n);
    hide *;
    var v1 := WantedGetsUp(w, n);
    ButIs(w, v1, k);
    var r := |v1.objs[k].proc.runs| - 1;
    UpIs(v1.objs[k]);
    UpCompletes(v1.objs[k]);
    var v2 := OneSafeAct(w, v1, k, ChildExits(r, ExitedWith(0), false));
    ButOnce(v1, v2, k);
    IsAt(v1, v2, k);
    v := OneSafeAct(w, v2, k, GivesVerdict(r));
    ButOnce(v2, v, k);
    ButTwice(w, v1, v2, k);
    ButTwice(w, v2, v, k);
    IsAt(v2, v, k);
    ExitedHasNoChild(v, k);
  }

  lemma ButIs(w: World, v: World, k: nat)
    requires But(w, v, k)
    ensures k < |v.objs| && v.objs[k].program == w.objs[k].program && v.current == w.current && v.busy == w.busy
    ensures v.desired == w.desired && v.programs == w.programs
  {
  }

  lemma UpIs(o: Obj)
    requires IsUp(o)
    ensures |o.proc.runs| > 0
  {
  }

  lemma ExitedHasNoChild(w: World, k: nat)
    requires Inv(w) && k < |w.objs| && |w.objs[k].proc.runs| > 0
    requires w.objs[k].proc.runs[|w.objs[k].proc.runs| - 1].phase.Over?
    ensures !HasChild(w.objs[k])
  {
    FineAt(w, {}, k);
    hide InvBut;
  }

  // ---------------------------------------------------------------- on demand

  lemma WishLeads(w: World, n: string, want: Desired) returns (v: World)
    requires Inv(w) && n in w.current
    ensures Leads(w, v) && Inv(v) && v == w.(desired := w.desired[n := want])
  {
    hide Inv, Leads;
    LeadsNowhere(w);
    if want == WantRunning {
      LeadsOn(w, w, WantStart(n));
      InvStep(w, WantStart(n));
    } else {
      LeadsOn(w, w, WantStop(n));
      InvStep(w, WantStop(n));
    }
    v := w.(desired := w.desired[n := want]);
  }

  /** The operator's stop: an idle program that is not STOPPING can be settled, wanted before or not. */
  lemma StopsOnDemand(w: World, n: string) returns (v: World)
    requires Inv(w) && n in w.current && n !in w.busy && w.objs[w.current[n]].proc.state != Stopping
    ensures Leads(w, v) && Inv(v) && Settled(v, n)
  {
    hide Inv, Leads, Settled;
    var v1 := WishLeads(w, n, WantStopped);
    v := UnwantedSettles(v1, n);
    LeadsFurther(w, v1, v);
  }

  /** A release: an operator's call of Stop takes a program that has ended to STOPPED. */
  lemma Release(o: Obj)
    requires ObjOk(o) && o.proc.state in {Exited, Fatal} && !InGap(o.proc)
    ensures var c := |o.calls|;
      && CanAct(o, CalledToStop) && !SlipsIn(o, CalledToStop) && !Clears(o, CalledToStop)
      && var q := Next(o, CalledToStop);
         && CanAct(q, StopMarks(c)) && !SlipsIn(q, StopMarks(c)) && !Clears(q, StopMarks(c))
         && var q1 := Next(q, StopMarks(c));
            && CanAct(q1, StopLands(c)) && !SlipsIn(q1, StopLands(c)) && !Clears(q1, StopLands(c))
            && Next(q1, StopLands(c)).proc.state == Stopped
            && (CallsOver(o) ==> CallsOver(Next(q1, StopLands(c))))
  {
  }

  lemma Released(w: World, n: string) returns (v: World)
    requires Inv(w) && n in w.current && !InGap(w.objs[w.current[n]].proc)
    requires w.objs[w.current[n]].proc.state in {Exited, Fatal} && CallsOver(w.objs[w.current[n]])
    ensures Leads(w, v) && Inv(v) && But(w, v, w.current[n])
    ensures v.objs[w.current[n]].proc.state == Stopped && CallsOver(v.objs[w.current[n]])
  {
    var k := w.current[n];
    var c := |w.objs[k].calls|;
    UsedOk(w, n);
    Release(w.objs[k]);
    hide *;
    LeadsNowhere(w);
    var v1 := OneSafeAct(w, w, k, CalledToStop);
    ButOnce(w, v1, k);
    IsAt(w, v1, k);
    var v2 := OneSafeAct(w, v1, k, StopMarks(c));
    ButOnce(v1, v2, k);
    IsAt(v1, v2, k);
    v := OneSafeAct(w, v2, k, StopLands(c));
    ButOnce(v2, v, k);
    ButTwice(w, v1, v2, k);
    ButTwice(w, v2, v, k);
  }

  lemma StillReached(w: World, v: World, n: string, want: Desired)
    requires Shape(w) && n in w.current && But(w, v, w.current[n])
    requires forall dep :: dep in w.programs[n].dependsOn ==> Reached(w, dep) && dep.name != n
    ensures v.programs == w.programs
    ensures forall dep :: dep in w.programs[n].dependsOn ==> Reached(v.(desired := v.desired[n := want]), dep)
  {
    forall dep | dep in w.programs[n].dependsOn ensures Reached(v.(desired := v.desired[n := want]), dep) {
      ShapeAt(w, dep.name);
    }
  }

  /**
   * The operator's start: a program that is STOPPED, has exited or has given up can be brought up, whatever was wanted
   * of it, if it is idle, no restart is past its cancel check, and its dependencies have reached what it waits for.
   */
  lemma StartsOnDemand(w: World, n: string) returns (v: World)
    requires Inv(w) && n in w.current && n !in w.busy && CallsOver(w.objs[w.current[n]])
    requires w.objs[w.current[n]].proc.state in {Stopped, Exited, Fatal} && !InGap(w.objs[w.current[n]].proc)
    requires forall dep :: dep in w.programs[n].dependsOn ==> Reached(w, dep) && dep.name != n
    ensures Leads(w, v) && Inv(v) && n in v.current && v.current[n] < |v.objs| && IsUp(v.objs[v.current[n]])
  {
    var k := w.current[n];
    InvShape(w);
    ShapeAt(w, n);
    hide Inv, Leads, Reached, IsUp, Shape, InGap;
    var v1 := w;
    LeadsNowhere(w);
    OnlyAtSelf(w, k);
    if w.objs[k].proc.state != Stopped { v1 := Released(w, n); }
    StillReached(w, v1, n, WantRunning);
    var v2 := WishLeads(v1, n, WantRunning);
    v := WantedGetsUp(v2, n);
    LeadsFurther(w, v1, v2);
    LeadsFurther(w, v2, v);
  }

  // ---------------------------------------------------------------- from a fresh start

  /** The first i programs of order are up, the others as at first. */
  ghost predicate UpTo(w: World, programs: map<string, Program>, order: seq<string>, i: nat)
    requires i <= |order|
  {
    && Inv(w) && w.programs == programs && w.busy == {}
    && (forall n :: n in programs ==> n in w.desired && w.desired[n] == WantRunning)
    && (forall j :: 0 <= j < i ==> UpAt(w, order[j]))
    && (forall j :: i <= j < |order| ==> NewAt(w, order[j]))
  }

  ghost predicate UpAt(w: World, n: string) {
    n in w.current && w.current[n] < |w.objs| && IsUp(w.objs[w.current[n]])
  }

  ghost predicate NewAt(w: World, n: string) {
    && n in w.current && w.current[n] < |w.objs|
    && w.objs[w.current[n]].proc == NEW_PROC && w.objs[w.current[n]].calls == []
  }

  /** A configuration that waits for programs to be up, not to be done, and only for what they can reach. */
  ghost predicate IsService(programs: map<string, Program>) {
    forall n, dep :: n in programs && dep in programs[n].dependsOn ==>
      dep.name in programs && dep.condition != Completed
      && (dep.condition == Healthy ==> programs[dep.name].hasHealthCheck)
  }

  lemma DependenciesUp(w: World, programs: map<string, Program>, order: seq<string>, i: nat)
    requires i < |order| && UpTo(w, programs, order, i) && IsService(programs)
    requires Graphs.IsOrder(DepsOf(programs), order)
    ensures order[i] in programs && forall dep :: dep in programs[order[i]].dependsOn ==> Reached(w, dep)
  {
    var n := order[i];
    assert n in DepsOf(programs);
    hide InvBut;
    forall dep | dep in programs[n].dependsOn ensures Reached(w, dep) {
      var a :| 0 <= a < |programs[n].dependsOn| && programs[n].dependsOn[a] == dep;
      assert DepsOf(programs)[n][a] == dep.name;
      assert Edge(DepsOf(programs), n, dep.name);
      var j := PlaceBefore(DepsOf(programs), order, i, dep.name);
      assert UpAt(w, order[j]);
      IsReached(w, dep);
    }
  }

  lemma IsReached(w: World, dep: Dependency)
    requires Inv(w) && UpAt(w, dep.name) && dep.condition != Completed
    requires dep.name in w.programs && (dep.condition == Healthy ==> w.programs[dep.name].hasHealthCheck)
    ensures Reached(w, dep)
  {
    UsedOk(w, dep.name);
    ShapeAt(w, dep.name);
    hide InvBut, ObjOk;
  }

  lemma PlaceBefore(deps: Listing, order: seq<string>, i: nat, d: string) returns (j: nat)
    requires Graphs.IsOrder(deps, order) && i < |order| && Edge(deps, order[i], d) && d in deps
    ensures j < i && order[j] == d
  {
    j :| 0 <= j < i && order[j] == d;
  }

  lemma OneMoreUp(w: World, programs: map<string, Program>, order: seq<string>, i: nat) returns (v: World)
    requires i < |order| && UpTo(w, programs, order, i) && IsService(programs)
    requires Graphs.IsOrder(DepsOf(programs), order) && NoDup(order)
    ensures Leads(w, v) && UpTo(v, programs, order, i + 1)
  {
    var n := order[i];
    DependenciesUp(w, programs, order, i);
    assert NewAt(w, n);
    InvShape(w);
    ShapeAt(w, n);
    hide Inv, Reached, Leads, IsService, Graphs.IsOrder, IsUp;
    v := WantedGetsUp(w, n);
    forall j | 0 <= j < |order| && j != i ensures w.current[order[j]] != w.current[n] {
      assert j < i ==> UpAt(w, order[j]);
      assert j > i ==> NewAt(w, order[j]);
      ShapeAt(w, order[j]);
    }
    forall j | 0 <= j < i + 1 ensures UpAt(v, order[j]) { assert j < i ==> UpAt(w, order[j]); }
    forall j | i + 1 <= j < |order| ensures NewAt(v, order[j]) { assert NewAt(w, order[j]); }
  }

  lemma {:induction false} AllUp(w: World, programs: map<string, Program>, order: seq<string>, i: nat)
    returns (v: World)
    requires i <= |order| && UpTo(w, programs, order, i) && IsService(programs)
    requires Graphs.IsOrder(DepsOf(programs), order) && NoDup(order)
    ensures Leads(w, v) && UpTo(v, programs, order, |order|)
    decreases |order| - i
  {
    if i == |order| {
      v := w;
      LeadsNowhere(w);
    } else {
      hide UpTo, IsService, Graphs.IsOrder, NoDup, Leads;
      var v1 := OneMoreUp(w, programs, order, i);
      v := AllUp(v1, programs, order, i + 1);
      LeadsFurther(w, v1, v);
    }
  }

  lemma UpAtFirst(w: World, programs: map<string, Program>, order: seq<string>)
    requires IsInitial(w, programs) && (forall n :: n in programs ==> programs[n].autostart)
    requires forall n :: n in order ==> n in programs
    ensures UpTo(w, programs, order, 0)
  {
    InvInitial(w, programs);
    forall j | 0 <= j < |order| ensures NewAt(w, order[j]) { assert order[j] in order; }
    hide InvBut;
  }

  /**
   * If every program is started at boot, waits only for others to be up or healthy, and there is an order of them all
   * in which dependencies come first, then the daemon can bring all of them up, without an operator.
   */
  lemma EverythingComesUp(w: World, programs: map<string, Program>, order: seq<string>) returns (v: World)
    requires IsInitial(w, programs) && IsService(programs) && forall n :: n in programs ==> programs[n].autostart
    requires Graphs.IsOrder(DepsOf(programs), order)
    ensures Leads(w, v) && v.programs == programs
    ensures forall n :: n in programs ==>
              && n in v.current && v.current[n] < |v.objs| && v.objs[v.current[n]].proc.state == Running
              && HasChild(v.objs[v.current[n]])
              && (programs[n].hasHealthCheck ==> v.objs[v.current[n]].proc.health == CheckHealthy)
  {
    OrderCovers(DepsOf(programs), order);
    UpAtFirst(w, programs, order);
    v := AllUp(w, programs, order, 0);
    InvShape(v);
    hide Inv, Leads, Graphs.IsOrder, IsService;
    forall n | n in programs
      ensures UpAt(v, n) && HasChild(v.objs[v.current[n]])
      ensures programs[n].hasHealthCheck ==> v.objs[v.current[n]].proc.health == CheckHealthy
    {
      var j :| 0 <= j < |order| && order[j] == n;
      assert UpAt(v, order[j]);
      ShapeAt(v, n);
      assert v.objs[v.current[n]].proc.runs[|v.objs[v.current[n]].proc.runs| - 1].phase.Up?;
    }
  }

  lemma OrderCovers(deps: Listing, order: seq<string>)
    requires Graphs.IsOrder(deps, order)
    ensures NoDup(order) && forall n :: n in order <==> n in deps
  {
  }

  /** A program that is not started at boot stays down until somebody asks for it or a reload replaces it. */
  lemma UnaskedStaysDown(programs: map<string, Program>, w: World, steps: seq<Step>, n: string)
    requires IsInitial(w, programs) && n in programs && !programs[n].autostart && CanRun(w, steps)
    requires forall step :: step in steps ==> LeavesAlone(step, n)
    ensures Settled(After(w, steps), n) && !HasChild(After(w, steps).objs[After(w, steps).current[n]])
  {
    InvInitial(w, programs);
    InvShape(w);
    assert w.objs[w.current[n]].proc.state == Stopped && w.desired[n] == WantStopped;
    hide InvBut, Shape, IsInitial, LeavesAlone;
    StoppedIsSettled(w, n);
    StopIsFinal(w, steps, n);
  }

  // ---------------------------------------------------------------- health

  ghost predicate NoCheckNoHealth(o: Obj) {
    !o.program.hasHealthCheck ==> o.proc.health == NoCheck
  }

  lemma UncheckedAct(o: Obj, act: Act)
    requires NoCheckNoHealth(o) && CanAct(o, act)
    ensures NoCheckNoHealth(Next(o, act))
  {
  }

  lemma UncheckedStep(w: World, step: Step, k: nat)
    requires Enabled(w, step) && k < |Apply(w, step).objs|
    requires forall j :: 0 <= j < |w.objs| ==> NoCheckNoHealth(w.objs[j])
    ensures NoCheckNoHealth(Apply(w, step).objs[k])
  {
    if k >= |w.objs| {
      NewIsNew(w, step, k);
    } else {
      ObjectsKept(w, step, k);
      if step.On? && step.obj == k { UncheckedAct(w.objs[k], step.act); }
      if step.Visit? && w.current[step.name] == k { CallsChangeNoProc(w, step.name); }
      hide CanAct, NextProc, NewEvents, Clears, CanSwap, SwapSpec, VisitSpec;
    }
  }

  lemma {:induction false} UncheckedAfter(w: World, steps: seq<Step>)
    requires CanRun(w, steps) && forall j :: 0 <= j < |w.objs| ==> NoCheckNoHealth(w.objs[j])
    ensures forall j :: 0 <= j < |After(w, steps).objs| ==> NoCheckNoHealth(After(w, steps).objs[j])
    decreases |steps|
  {
    if steps != [] {
      hide Enabled, Apply, NoCheckNoHealth;
      forall k | 0 <= k < |Apply(w, steps[0]).objs| ensures NoCheckNoHealth(Apply(w, steps[0]).objs[k]) {
        UncheckedStep(w, steps[0], k);
      }
      UncheckedAfter(Apply(w, steps[0]), steps[1..]);
    }
  }

  /** In every run whatsoever, a program without a health check is never healthy: who waits for that waits for ever. */
  lemma HealthNeedsCheck(programs: map<string, Program>, w: World, steps: seq<Step>, dep: Dependency)
    requires IsInitial(w, programs) && CanRun(w, steps) && dep.condition == Healthy
    requires dep.name in After(w, steps).programs && !After(w, steps).programs[dep.name].hasHealthCheck
    ensures !Reached(After(w, steps), dep)
  {
    RecordedAtFirst(programs, w);
    RecordedAfter(w, steps);
    UncheckedAfter(w, steps);
    var v := After(w, steps);
    if dep.name in v.current {
      ShapeAt(v, dep.name);
      assert NoCheckNoHealth(v.objs[v.current[dep.name]]);
    }
  }
}
