/**
 * What goes wrong outside the runs Children speaks of: for every world, a start between the halves of a stop, a stop
 * between a cancel check and the restart, a reload that drops an object with something under way, and a program added
 * back too early each make room for a second child.
 */
module Breaches {
  import opened Common
  import opened Configuration
  import opened Blocking
  import opened Lifecycle
  import opened Objects
  import opened Supervisor
  import opened Children
  import opened Chronicle
  import opened Runs

  // ---------------------------------------------------------------- a start between the halves of a stop

  /** The start forks; the stop then lands on the child and calls it STOPPED. */
  lemma LandsOnChild(o: Obj, c: nat, m: nat)
    requires ObjOk(o) && CanAct(o, StartRuns(c, true)) && m < |o.calls| && LandsStopped(o.calls[m])
    ensures Clears(o, StartRuns(c, true))
    ensures var o1 := Next(o, StartRuns(c, true));
      && CanAct(o1, StopLands(m))
      && var o2 := Next(o1, StopLands(m));
         && o2.proc.state == Stopped && !o2.proc.stoppedExternally
         && |o2.proc.runs| == |o.proc.runs| + 1 && o2.proc.runs[|o.proc.runs|].phase.Up?
  {
  }

  lemma QueuedForks(o: Obj)
    requires o.proc.state == Stopped
    ensures var q := WithCall(o, StartQueued);
      q.proc == o.proc && CanAct(q, StartRuns(|o.calls|, true)) && Forks(q, StartRuns(|o.calls|, true))
  {
  }

  /**
   * A start that slips in forks a child, and the stop calls the program STOPPED over it. The program is idle and could
   * be started again.
   */
  lemma SlipHidesChild(w: World, n: string, c: nat) returns (v: World)
    requires Inv(w) && n in w.current && Enabled(w, On(w.current[n], StartRuns(c, true)))
    requires SlipsIn(w.objs[w.current[n]], StartRuns(c, true))
    ensures var k := w.current[n];
      && Leads(Apply(w, On(k, StartRuns(c, true))), v) && OnlyAt(w, v, k) && n !in v.busy
      && v.objs[k].proc.state == Stopped && !v.objs[k].proc.stoppedExternally
      && IsChild(v, k, |w.objs[k].proc.runs|) && |v.objs[k].proc.runs| == |w.objs[k].proc.runs| + 1
    ensures Supplied(w, n) ==> Startable(v, n)
  {
    var k := w.current[n];
    UsedOk(w, n);
    ShapeAt(w, n);
    var w1 := Apply(w, On(k, StartRuns(c, true)));
    hide *;
    var m := SlipSetup(w, n, c);
    LeadsNowhere(w1);
    v := OneAct(w1, w1, k, StopLands(m));
    OnlyAtOnward(w, w1, v, k);
    IsTheChild(v, k, |w.objs[k].proc.runs|);
    StillThere(w1, v, k, n);
    if Supplied(w, n) {
      StaysSupplied(w, w, v, k, n);
      SuppliedStarts(v, n);
    }
  }

  lemma IsTheChild(v: World, k: nat, r: nat)
    requires k < |v.objs| && r < |v.objs[k].proc.runs| && v.objs[k].proc.runs[r].phase.Up?
    ensures IsChild(v, k, r)
  {
  }

  /**
   * The condition on starts cannot be dropped: in every world an orderly run can reach, a start that forks between
   * the halves of a stop that read a stopped state leads to two children of one object, if the program's
   * dependencies stay satisfied.
   */
  lemma SlipMakesTwo(w: World, n: string, c: nat) returns (v: World)
    requires Inv(w) && n in w.current && Enabled(w, On(w.current[n], StartRuns(c, true)))
    requires SlipsIn(w.objs[w.current[n]], StartRuns(c, true)) && Supplied(w, n)
    ensures Leads(Apply(w, On(w.current[n], StartRuns(c, true))), v) && TwoChildren(v, w.current[n])
    ensures Recorded(w) ==> IsDoubled(v, w.current[n])
    ensures w.current[n] < |v.objs| && v.objs[w.current[n]].program == w.objs[w.current[n]].program
  {
    var k := w.current[n];
    hide *;
    var stopped := SlipHidesChild(w, n, c);
    if Recorded(w) { RecordedStep(w, On(k, StartRuns(c, true))); }
    v := SecondFork(Apply(w, On(k, StartRuns(c, true))), stopped, n, |w.objs[k].proc.runs|);
  }

  lemma StillThere(v: World, v': World, k: nat, n: string)
    requires OnlyAt(v, v', k) && n in v.current && n in v.desired && v.current[n] == k && n !in v.busy
    ensures n in v'.current && n in v'.desired && v'.current[n] == k < |v'.objs| && n !in v'.busy
  {
  }

  lemma SlipSetup(w: World, n: string, c: nat) returns (m: nat)
    requires Inv(w) && n in w.current && Enabled(w, On(w.current[n], StartRuns(c, true)))
    requires SlipsIn(w.objs[w.current[n]], StartRuns(c, true))
    ensures var k, w1 := w.current[n], Apply(w, On(w.current[n], StartRuns(c, true)));
      && k < |w1.objs| && CanAct(w1.objs[k], StopLands(m))
      && (var o := Next(w1.objs[k], StopLands(m));
          && o.proc.state == Stopped && !o.proc.stoppedExternally && |o.proc.runs| == |w.objs[k].proc.runs| + 1
          && o.proc.runs[|w.objs[k].proc.runs|].phase.Up?)
      && OnlyAt(w, w1, k) && n in w1.current && n in w1.desired && w1.current[n] == k && n !in w1.busy
  {
    var k := w.current[n];
    var o := w.objs[k];
    m :| 0 <= m < |o.calls| && LandsStopped(o.calls[m]);
    UsedOk(w, n);
    ShapeAt(w, n);
    LandsOnChild(o, c, m);
    FirstOnlyAt(w, k, StartRuns(c, true));
    hide Inv, ObjOk, CanAct, Next, Clears, Apply, Enabled;
  }

  /** A program that is STOPPED over a child gets a second one. */
  lemma SecondFork(w: World, v: World, n: string, r: nat) returns (v': World)
    requires Leads(w, v) && Startable(v, n) && IsChild(v, v.current[n], r)
    ensures Leads(w, v') && TwoChildren(v', v.current[n]) && (Recorded(w) ==> IsDoubled(v', v.current[n]))
    ensures v.current[n] < |v'.objs| && v'.objs[v.current[n]].program == v.objs[v.current[n]].program
  {
    var k := v.current[n];
    var o := v.objs[k];
    QueuedForks(o);
    v' := QueuesStart(w, v, n);
    assert v'.objs[k] == WithCall(o, StartQueued);
    hide CanAct, Next, Leads, Startable, Recorded, Forks;
    v' := ForkDoubles(w, v', k, StartRuns(|o.calls|, true), r);
  }

  // ---------------------------------------------------------------- a stop between cancel check and restart

  /** A stop that slips in has read EXITED; whatever its landing meets, the restart is still to come. */
  lemma GapMarks(o: Obj, c: nat)
    requires ObjOk(o) && CanAct(o, StopMarks(c)) && SlipsIn(o, StopMarks(c))
    ensures !Clears(o, StopMarks(c))
    ensures var q := Next(o, StopMarks(c));
      && InGap(q.proc) && |q.calls| == |o.calls| && q.calls[c].stage.StopMarked? && ReadsStopped(q.calls[c].stage.seen)
      && q.calls[c].held == o.calls[c].held && (forall i :: 0 <= i < |o.calls| && i != c ==> q.calls[i] == o.calls[i])
  {
    var r :| 0 <= r < |o.proc.runs| && o.proc.runs[r].phase.Restarting?;
    assert Next(o, StopMarks(c)).proc.runs[r].phase.Restarting?;
  }

  lemma GapLands(o: Obj, c: nat)
    requires InGap(o.proc) && c < |o.calls| && LandsStopped(o.calls[c])
    ensures CanAct(o, StopLands(c)) && (Clears(o, StopLands(c)) <==> o.calls[c].held)
    ensures var q := Next(o, StopLands(c)); q.proc.state == Stopped && InGap(q.proc) && q.calls[c].stage.Done?
  {
    var r :| 0 <= r < |o.proc.runs| && o.proc.runs[r].phase.Restarting?;
    assert Next(o, StopLands(c)).proc.runs[r].phase.Restarting?;
  }

  lemma GapStays(p: Proc, q: Proc)
    requires InGap(p) && SamePhases(p, q)
    ensures InGap(q)
  {
    var r :| 0 <= r < |p.runs| && p.runs[r].phase.Restarting?;
    assert q.runs[r].phase.Restarting?;
  }

  /** The object of n is between a cancel check and the restart, and stop c on it will land as STOPPED. */
  ghost predicate GapBetween(v: World, n: string, c: nat) {
    && n in v.current && n in v.desired && v.current[n] < |v.objs|
    && var o := v.objs[v.current[n]];
    && InGap(o.proc) && c < |o.calls| && LandsStopped(o.calls[c])
    && (n in v.busy ==> o.name == n && o.calls[c].held)
  }

  /** After the mark; any other action of the program in flight is brought to its end. */
  lemma GapAlone(w: World, n: string, c: nat) returns (v: World)
    requires Inv(w) && n in w.current && Enabled(w, On(w.current[n], StopMarks(c)))
    requires SlipsIn(w.objs[w.current[n]], StopMarks(c))
    ensures Leads(Apply(w, On(w.current[n], StopMarks(c))), v) && v.current == w.current
    ensures GapBetween(v, n, c) && (Supplied(w, n) ==> Supplied(v, n))
    ensures v.objs[w.current[n]].program == w.objs[w.current[n]].program
  {
    var k := w.current[n];
    UsedOk(w, n);
    ShapeAt(w, n);
    GapMarks(w.objs[k], c);
    FirstOnlyAt(w, k, StopMarks(c));
    var w1 := Apply(w, On(k, StopMarks(c)));
    hide InvBut, Shape, Marks, ObjOk, CanAct, Next, Clears, NewEvents, Apply, Enabled, SlipsIn, Leads, Supplied, InGap;
    LeadsNowhere(w1);
    if Supplied(w, n) { StaysSupplied(w, w, w1, k, n); }
    v := w1;
    if n in w.busy && !w.objs[k].calls[c].held {
      var j := HolderOf(w, n);
      v := GapFreed(w, w1, n, c, j);
    }
  }

  /** The stop itself does not hold the mark: the call that does ends first. */
  lemma GapFreed(w: World, w1: World, n: string, c: nat, j: nat) returns (v: World)
    requires Shape(w) && n in w.current && w.current[n] < |w.objs| && OnlyAt(w, w1, w.current[n])
    requires var o := w1.objs[w.current[n]];
      InGap(o.proc) && c < |o.calls| == |w.objs[w.current[n]].calls| && LandsStopped(o.calls[c]) && !o.calls[c].held
      && forall i :: 0 <= i < |o.calls| && i != c ==> o.calls[i] == w.objs[w.current[n]].calls[i]
    requires !w.objs[w.current[n]].calls[c].held
    requires j < |w.objs| && w.objs[j].name == n && HoldsMark(w.objs[j])
    ensures Leads(w1, v) && v.current == w.current && GapBetween(v, n, c) && (Supplied(w1, n) ==> Supplied(v, n))
    ensures v.objs[w.current[n]].program == w1.objs[w.current[n]].program
  {
    var k := w.current[n];
    ShapeAt(w, n);
    var h :| 0 <= h < |w.objs[j].calls| && Holds(w.objs[j].calls[h]);
    assert j != k ==> w1.objs[j] == w.objs[j];
    assert h < |w1.objs[j].calls| && Holds(w1.objs[j].calls[h]);
    LeadsNowhere(w1);
    hide Leads, Supplied, InGap, Shape;
    v := FreeMark(w1, w1, j, h);
    if j == k { GapStays(w1.objs[k].proc, v.objs[k].proc); }
    if Supplied(w1, n) { StaysSupplied(w, w1, v, j, n); }
  }

  /**
   * A stop of an exited program slips in between the cancel check and the restart. It can be over, the program STOPPED
   * and idle, and the program still gets a child without anybody asking for it.
   */
  lemma GapUndoesStop(w: World, n: string, c: nat) returns (stopped: World, v: World)
    requires Inv(w) && n in w.current && Enabled(w, On(w.current[n], StopMarks(c)))
    requires SlipsIn(w.objs[w.current[n]], StopMarks(c))
    ensures var k := w.current[n];
      && Leads(Apply(w, On(k, StopMarks(c))), stopped) && stopped.current == w.current && k < |stopped.objs|
      && stopped.objs[k].proc.state == Stopped && n !in stopped.busy && InGap(stopped.objs[k].proc)
      && c < |stopped.objs[k].calls| && stopped.objs[k].calls[c].stage.Done?
      && stopped.objs[k].program == w.objs[k].program
      && Leads(stopped, v) && OnlyAt(stopped, v, k) && HasChild(v.objs[k])
    ensures Supplied(w, n) ==> Startable(stopped, n)
  {
    var k := w.current[n];
    InvShape(w);
    ShapeAt(w, n);
    hide *;
    var alone := GapAlone(w, n, c);
    stopped := GapStopped(w, Apply(w, On(k, StopMarks(c))), alone, n, c);
    LeadsNowhere(stopped);
    var r := GapAt(stopped.objs[k].proc);
    RestartForks(stopped.objs[k], r);
    v := OneAct(stopped, stopped, k, Restarts(r, true));
  }

  lemma GapAt(p: Proc) returns (r: nat)
    requires InGap(p)
    ensures r < |p.runs| && p.runs[r].phase.Restarting?
  {
    r :| 0 <= r < |p.runs| && p.runs[r].phase.Restarting?;
  }

  lemma GapStopped(w: World, w1: World, v: World, n: string, c: nat) returns (v': World)
    requires Leads(w1, v) && GapBetween(v, n, c) && v.current == w.current && Shape(w) && w.objs[w.current[n]].name == n
    ensures Leads(w1, v') && v'.current == w.current && n !in v'.busy
    ensures var k := w.current[n];
      && k < |v'.objs| && v'.objs[k].proc.state == Stopped && InGap(v'.objs[k].proc)
      && c < |v'.objs[k].calls| && v'.objs[k].calls[c].stage.Done? && v'.objs[k].program == v.objs[k].program
    ensures Supplied(v, n) ==> Startable(v', n)
  {
    var k := v.current[n];
    GapLands(v.objs[k], c);
    ShapeAt(w, n);
    hide CanAct, Next, Clears, NewEvents, Leads, InGap, Supplied;
    v' := OneAct(w1, v, k, StopLands(c));
    if Supplied(v, n) {
      StaysSupplied(w, v, v', k, n);
    }
  }

  /**
   * The condition on stops of restarting programs cannot be dropped either: if the dependencies stay satisfied the
   * program can be started in the meantime, and the restart makes a second child of the same object.
   */
  lemma GapMakesTwo(w: World, n: string, c: nat) returns (v: World)
    requires Inv(w) && n in w.current && Enabled(w, On(w.current[n], StopMarks(c)))
    requires SlipsIn(w.objs[w.current[n]], StopMarks(c)) && Supplied(w, n)
    ensures Leads(Apply(w, On(w.current[n], StopMarks(c))), v) && TwoChildren(v, w.current[n])
    ensures Recorded(w) ==> IsDoubled(v, w.current[n])
    ensures w.current[n] < |v.objs| && v.objs[w.current[n]].program == w.objs[w.current[n]].program
  {
    var k := w.current[n];
    hide *;
    var stopped, revived := GapUndoesStop(w, n, c);
    var r := GapAt(stopped.objs[k].proc);
    if Recorded(w) { RecordedStep(w, On(k, StopMarks(c))); }
    v := RestartBesideStart(Apply(w, On(k, StopMarks(c))), stopped, n, r);
  }

  /** Meanwhile the reconciler starts the program; the restart forks all the same. */
  lemma StartLeavesRestart(o: Obj, r: nat)
    requires o.proc.state == Stopped && r < |o.proc.runs| && o.proc.runs[r].phase.Restarting?
    ensures var q := WithCall(o, StartQueued);
      && CanAct(q, StartRuns(|o.calls|, true))
      && var q1 := Next(q, StartRuns(|o.calls|, true));
         && CanAct(q1, Restarts(r, true)) && Forks(q1, Restarts(r, true))
         && |q1.proc.runs| == |o.proc.runs| + 1 && q1.proc.runs[|o.proc.runs|].phase.Up?
  {
  }

  lemma RestartBesideStart(w: World, v: World, n: string, r: nat) returns (v': World)
    requires Leads(w, v) && Startable(v, n)
    requires r < |v.objs[v.current[n]].proc.runs| && v.objs[v.current[n]].proc.runs[r].phase.Restarting?
    ensures Leads(w, v') && TwoChildren(v', v.current[n]) && (Recorded(w) ==> IsDoubled(v', v.current[n]))
    ensures v.current[n] < |v'.objs| && v'.objs[v.current[n]].program == v.objs[v.current[n]].program
  {
    var k := v.current[n];
    var o := v.objs[k];
    StartLeavesRestart(o, r);
    v' := QueuesStart(w, v, n);
    assert v'.objs[k] == WithCall(o, StartQueued);
    hide CanAct, Next, Clears, Leads, Startable, WithCall, Recorded, Forks;
    v' := OneAct(w, v', k, StartRuns(|o.calls|, true));
    v' := ForkDoubles(w, v', k, Restarts(r, true), |o.proc.runs|);
  }

  // ---------------------------------------------------------------- a reload that drops too much

  /** The verdict on run r, if it is still to come, starts a backoff that ends in a restart. */
  lemma JudgedWakes(o: Obj, r: nat)
    requires ObjOk(o) && r < |o.proc.runs| && WillRestart(o.proc, o.program, r)
    ensures CanAct(o, GivesVerdict(r)) && !Clears(o, GivesVerdict(r)) && Next(o, GivesVerdict(r)).calls == o.calls
    ensures var q := Next(o, GivesVerdict(r)).proc; r < |q.runs| && WillWake(q, r)
  {
  }

  lemma WakesIntoGap(o: Obj, r: nat)
    requires r < |o.proc.runs| && WillWake(o.proc, r) && !o.proc.runs[r].phase.Restarting?
    ensures CanAct(o, Wakes(r)) && !Clears(o, Wakes(r)) && Next(o, Wakes(r)).calls == o.calls
    ensures var q := Next(o, Wakes(r)).proc; r < |q.runs| && q.runs[r].phase.Restarting?
  {
  }

  lemma RestartClearsNothing(o: Obj, r: nat)
    requires CanAct(o, Restarts(r, true))
    ensures !Clears(o, Restarts(r, true)) && Next(o, Restarts(r, true)).calls == o.calls
  {
  }

  lemma RisesFromGap(w: World, v: World, k: nat, r: nat) returns (v': World, i: nat)
    requires Leads(w, v) && k < |v.objs| && r < |v.objs[k].proc.runs| && v.objs[k].proc.runs[r].phase.Restarting?
    ensures Leads(w, v') && OnlyAt(v, v', k) && IsChild(v', k, i)
    ensures v'.busy == v.busy && v'.objs[k].calls == v.objs[k].calls
  {
    hide *;
    RestartForks(v.objs[k], r);
    RestartClearsNothing(v.objs[k], r);
    v' := OneAct(w, v, k, Restarts(r, true));
    IsAt(v, v', k);
    i := HasOne(v', k);
  }

  lemma RisesAwake(w: World, v: World, k: nat, r: nat) returns (v': World, i: nat)
    requires Leads(w, v) && k < |v.objs| && r < |v.objs[k].proc.runs| && WillWake(v.objs[k].proc, r)
    ensures Leads(w, v') && OnlyAt(v, v', k) && IsChild(v', k, i)
    ensures v'.busy == v.busy && v'.objs[k].calls == v.objs[k].calls
  {
    hide *;
    if v.objs[k].proc.runs[r].phase.Restarting? {
      v', i := RisesFromGap(w, v, k, r);
    } else {
      WakesIntoGap(v.objs[k], r);
      var v1 := OneAct(w, v, k, Wakes(r));
      IsAt(v, v1, k);
      v', i := RisesFromGap(w, v1, k, r);
      OnlyAtTwice(v, v1, v', k);
    }
  }

  /** An object that is undead has a child after acts of its own, and then no start queued. */
  lemma Rises(w: World, v: World, k: nat) returns (v': World, r: nat)
    requires Leads(w, v) && k < |v.objs| && ObjOk(v.objs[k]) && Undead(v.objs[k])
    ensures Leads(w, v') && OnlyAt(v, v', k) && IsChild(v', k, r)
    ensures v.objs[k].name !in v'.busy || (v'.busy == v.busy && v'.objs[k].calls == v.objs[k].calls)
  {
    var o := v.objs[k];
    if c :| 0 <= c < |o.calls| && o.calls[c].stage.StartQueued? {
      assert Clears(o, StartRuns(c, true)) by { hide Sound; }
      hide *;
      StartForks(o, c);
      v' := OneAct(w, v, k, StartRuns(c, true));
      IsAt(v, v', k);
      r := HasOne(v', k);
    } else {
      r :| 0 <= r < |o.proc.runs| && Lives(o.proc, o.program, r);
      if o.proc.runs[r].phase.Up? {
        v' := v;
      } else if WillWake(o.proc, r) {
        hide *;
        v', r := RisesAwake(w, v, k, r);
      } else {
        assert WillRestart(o.proc, o.program, r);
        hide *;
        JudgedWakes(o, r);
        var v1 := OneAct(w, v, k, GivesVerdict(r));
        IsAt(v, v1, k);
        v', r := RisesAwake(w, v1, k, r);
        OnlyAtTwice(v, v1, v', k);
      }
    }
  }

  /**
   * The condition on drops cannot be dropped: in every world an orderly run can reach, a reload that replaces an
   * object with a child, or with something that leads to one, can end with two children of that program; at once if
   * the new definition may be started.
   */
  lemma DropMakesTwo(w: World, programs: map<string, Program>, previous: map<string, Desired>, made: seq<string>,
                     n: string) returns (v: World)
    requires Inv(w) && CanSwap(w, programs, previous, made) && n in w.programs && n in made
    requires Undead(w.objs[w.current[n]]) && Supplied(SwapSpec(w, programs, previous, made), n)
    ensures Leads(SwapSpec(w, programs, previous, made), v) && TwoChildrenOf(v, n)
  {
    InvShape(w);
    hide *;
    WishesKnown(w);
    UsedOk(w, n);
    ShapeAt(w, n);
    Replaced(w, programs, previous, made, n);
    v := RisesBesideNew(w, SwapSpec(w, programs, previous, made), n, w.current[n]);
  }

  /**
   * A reload that is not clean, because it replaces or removes such an object, always can: a later reload can define
   * the program so that it waits for nothing, and start it beside the child of the old object.
   */
  lemma UncleanMakesTwo(w: World, step: Step) returns (n: string, v: World)
    requires Inv(w) && Enabled(w, step) && !Clean(w, step)
    ensures Leads(Apply(w, step), v) && TwoChildrenOf(v, n)
  {
    n := UncleanDrop(w, step);
    hide *;
    InvShape(w);
    UsedOk(w, n);
    ShapeAt(w, n);
    var w1 := Apply(w, step);
    SwapIsStep(w, step.programs, step.previous, step.made);
    AfterSwap(w, step.programs, step.previous, step.made);
    var p := w.programs[n];
    if n in step.programs { p := step.programs[n]; }
    var v1 := Renewed(w, w1, n, Freely(p));
    var v2 := RisesBesideNew(w, v1, n, w.current[n]);
    LeadsFurther(w1, v1, v2);
    v := v2;
  }

  lemma UncleanDrop(w: World, step: Step) returns (n: string)
    requires Inv(w) && Enabled(w, step) && !Clean(w, step)
    ensures step.Swap? && CanSwap(w, step.programs, step.previous, step.made) && n in w.programs && n in w.current
    ensures w.current[n] < |w.objs| && Undead(w.objs[w.current[n]])
  {
    hide InvBut, Undead, CanSwap, Kept;
    n :| n in w.programs && n in w.current && !Kept(w, step.programs, n) && w.current[n] < |w.objs|
         && Undead(w.objs[w.current[n]]);
  }

  /** The old object gets its child, whatever is in flight for n ends, and the new object gets one as well. */
  lemma RisesBesideNew(w: World, w1: World, n: string, k: nat) returns (v: World)
    requires Marks(w) && FreshSlot(w, w1, n)
    requires k < |w.objs| && w.objs[k].name == n && ObjOk(w.objs[k]) && Undead(w.objs[k])
    requires Supplied(w1, n)
    ensures Leads(w1, v) && TwoChildrenOf(v, n)
  {
    hide Marks, ObjOk, Undead, Leads, Supplied, HoldsMark, TwoChildrenOf;
    LeadsNowhere(w1);
    var k1 := w1.current[n];
    var v1, r := Rises(w1, w1, k);
    StillSupplied(w1, v1, k, n);
    var v2 := v1;
    if n in v1.busy {
      var j := HolderOf(w, n);
      StillHolds(w.objs[j], v1.objs[j]);
      v2 := Freed(w1, v1, n, j);
      StillSupplied(v1, v2, j, n);
      ChildStays(v1, v2, j, k, r);
    }
    v := StartsNow(w1, v2, n);
    BothChildren(v, n, k, r, k1, 0);
  }

  // ---------------------------------------------------------------- a program added back too early

  /** An object with two starts queued that is told to stop in between can start a second time. */
  lemma SecondStartForks(o: Obj)
    requires o.proc == NEW_PROC && |o.calls| == 2 && o.calls[0].stage.StartQueued? && o.calls[1].stage.StartQueued?
    ensures CanAct(o, StartRuns(0, true))
    ensures var o1 := Next(o, StartRuns(0, true));
      && CanAct(o1, CalledToStop)
      && var o2 := Next(o1, CalledToStop);
         && CanAct(o2, StopMarks(2))
         && var o3 := Next(o2, StopMarks(2));
            && CanAct(o3, StopLands(2))
            && var o4 := Next(o3, StopLands(2));
               && CanAct(o4, StartRuns(1, true)) && Forks(o4, StartRuns(1, true))
               && |o4.proc.runs| == 1 && o4.proc.runs[0].phase.Up?
  {
  }

  /** Adding a program back too early can end with two starts queued on a new object of it. */
  lemma EarlyReturnQueuesTwo(w: World, step: Step) returns (n: string, k: nat, v: World)
    requires Shape(w) && step.Swap? && Enabled(w, step) && !NoEarlyReturn(w, step.programs)
    ensures Leads(Apply(w, step), v) && QueuedTwice(v, k)
    ensures n in step.programs && v.objs[k].name == n && v.objs[k].program == Freely(step.programs[n])
  {
    var j: nat;
    n, j := EarlyReturn(w, step);
    hide *;
    WishesKnown(w);
    var w1 := Apply(w, step);
    SwapIsStep(w, step.programs, step.previous, step.made);
    AfterSwap(w, step.programs, step.previous, step.made);
    var v1 := Renewed(w, w1, n, Freely(step.programs[n]));
    k := SlotOf(w, v1, n);
    v := QueuesTwice(w, v1, n, j);
    LeadsFurther(w1, v1, v);
  }

  /**
   * The condition on additions cannot be dropped: in every world an orderly run can reach, adding a program back
   * while an action on a dropped object of its name is in flight can end with two children of one object. The old
   * action ends by clearing a mark that is no longer its own, and the reconciler queues a second start.
   */
  lemma EarlyReturnMakesTwo(w: World, step: Step) returns (n: string, k: nat, v: World)
    requires Shape(w) && step.Swap? && Enabled(w, step) && !NoEarlyReturn(w, step.programs)
    ensures Leads(Apply(w, step), v) && TwoChildren(v, k)
    ensures n in step.programs && v.objs[k].name == n && v.objs[k].program == Freely(step.programs[n])
    ensures Recorded(w) ==> IsDoubled(v, k)
  {
    hide *;
    var queued;
    n, k, queued := EarlyReturnQueuesTwo(w, step);
    if Recorded(w) { RecordedStep(w, step); }
    v := ForksTwice(Apply(w, step), queued, k);
    HasObject(v, k);
  }

  lemma HasObject(v: World, k: nat)
    requires TwoChildren(v, k)
    ensures k < |v.objs|
  {
  }

  lemma EarlyReturn(w: World, step: Step) returns (n: string, j: nat)
    requires Shape(w) && step.Swap? && Enabled(w, step) && !NoEarlyReturn(w, step.programs)
    ensures CanSwap(w, step.programs, step.previous, step.made) && n in step.programs && n in step.made
    ensures n !in w.programs && n !in w.busy && j < |w.objs| && w.objs[j].name == n && HoldsMark(w.objs[j])
  {
    hide HoldsMark, NoDup;
    j :| 0 <= j < |w.objs| && HoldsMark(w.objs[j])
         && w.objs[j].name in step.programs && w.objs[j].name !in w.programs;
    n := w.objs[j].name;
  }

  lemma SlotOf(w: World, v: World, n: string) returns (k: nat)
    requires FreshSlot(w, v, n)
    ensures n in v.current && v.current[n] == k < |v.objs| && v.objs[k].name == n
  {
    k := v.current[n];
  }

  /** Both actions are queued on the new object. */
  ghost predicate QueuedTwice(v: World, k: nat) {
    && k < |v.objs| && v.objs[k].proc == NEW_PROC && |v.objs[k].calls| == 2
    && v.objs[k].calls[0].stage.StartQueued? && v.objs[k].calls[1].stage.StartQueued?
  }

  lemma QueuesTwice(w: World, w1: World, n: string, j: nat) returns (v: World)
    requires FreshSlot(w, w1, n) && n !in w.busy
    requires j < |w.objs| && w.objs[j].name == n && HoldsMark(w.objs[j])
    requires Supplied(w1, n)
    ensures Leads(w1, v) && QueuedTwice(v, w1.current[n])
    ensures v.objs[w1.current[n]].name == n && v.objs[w1.current[n]].program == w1.objs[w1.current[n]].program
  {
    hide Leads, Supplied, HoldsMark;
    LeadsNowhere(w1);
    var k := w1.current[n];
    var v1 := QueuesStart(w1, w1, n);
    QueuedSupplied(w1, n, k);
    var v2 := Freed(w1, v1, n, j);
    StillSupplied(v1, v2, j, n);
    v := QueuesStart(w1, v2, n);
  }

  lemma ForksTwice(w: World, v: World, k: nat) returns (v': World)
    requires Leads(w, v) && QueuedTwice(v, k)
    ensures Leads(w, v') && TwoChildren(v', k) && (Recorded(w) ==> IsDoubled(v', k))
    ensures |v'.objs| == |v.objs| && v'.objs[k].name == v.objs[k].name && v'.objs[k].program == v.objs[k].program
  {
    SecondStartForks(v.objs[k]);
    hide CanAct, Next, Leads, Clears, NewEvents, Recorded, Forks;
    v' := OneAct(w, v, k, StartRuns(0, true));
    v' := OneAct(w, v', k, CalledToStop);
    v' := OneAct(w, v', k, StopMarks(2));
    v' := OneAct(w, v', k, StopLands(2));
    v' := ForkDoubles(w, v', k, StartRuns(1, true), 0);
  }

  // ---------------------------------------------------------------- a start over a child

  lemma OverlapForks(o: Obj, c: nat) returns (i: nat)
    requires CanAct(o, StartRuns(c, true)) && Overlaps(o, StartRuns(c, true))
    ensures var q := Next(o, StartRuns(c, true));
      && |q.proc.runs| == |o.proc.runs| + 1 && q.proc.runs[|o.proc.runs|].phase.Up? && i < |o.proc.runs|
      && (q.proc.runs[i].phase.Up? || (CanAct(q, Restarts(i, true)) && Forks(q, Restarts(i, true))))
  {
    i :| 0 <= i < |o.proc.runs| && (o.proc.runs[i].phase.Up? || o.proc.runs[i].phase.Restarting?);
  }

  /** In every world whatsoever, a start that overlaps makes two children, at once or with the restart. */
  lemma OverlapMakesTwo(w: World, k: nat, c: nat) returns (v: World)
    requires k < |w.objs| && CanAct(w.objs[k], StartRuns(c, true)) && Overlaps(w.objs[k], StartRuns(c, true))
    ensures Leads(OnSpec(w, k, StartRuns(c, true)), v) && TwoChildren(v, k)
  {
    var i := OverlapForks(w.objs[k], c);
    FirstOnlyAt(w, k, StartRuns(c, true));
    v := OnSpec(w, k, StartRuns(c, true));
    hide CanAct, Next, Clears, NewEvents, OnSpec, Leads, Forks, Recorded, IsDoubled;
    LeadsNowhere(v);
    if v.objs[k].proc.runs[i].phase.Up? {
      AreTwo(v, k, i, |w.objs[k].proc.runs|);
    } else {
      v := ForkDoubles(v, v, k, Restarts(i, true), |w.objs[k].proc.runs|);
    }
  }

  // ---------------------------------------------------------------- every breach

  /** What an act that slips in needs to show: the dependencies of its program are there. */
  ghost predicate Grave(w: World, step: Step)
    requires Enabled(w, step)
  {
    !Orderly(w, step) && (step.On? ==> Supplied(w, w.objs[step.obj].name))
  }

  lemma SlipInUse(w: World, step: Step)
    requires Enabled(w, step) && step.On? && !Orderly(w, step)
    ensures var o := w.objs[step.obj];
      && o.name in w.current && w.current[o.name] == step.obj && SlipsIn(o, step.act)
      && ((step.act.StartRuns? && step.act.launched) || step.act.StopMarks?)
  {
    hide CanAct;
  }

  lemma SwapTooEarly(w: World, step: Step)
    requires Enabled(w, step) && !step.On? && !Orderly(w, step)
    ensures step.Swap? && !NoEarlyReturn(w, step.programs)
  {
  }

  /**
   * Each condition of an orderly run is needed: from every world such a run can reach, a step that breaks one leads to
   * two children of one object, if the program of a breach that is an act has its dependencies satisfied.
   */
  lemma DisorderMakesTwo(w: World, step: Step) returns (k: nat, v: World)
    requires Inv(w) && Enabled(w, step) && Grave(w, step)
    ensures Leads(Apply(w, step), v) && TwoChildren(v, k) && k < |v.objs|
    ensures Recorded(w) ==> IsDoubled(v, k)
    ensures if step.On? then k == step.obj && v.objs[k].program == w.objs[k].program
            else v.objs[k].program.autorestart == Always && v.objs[k].program.maxRestarts == 1
  {
    assert !Orderly(w, step) && (step.On? ==> Supplied(w, w.objs[step.obj].name));
    hide *;
    InvShape(w);
    if step.On? {
      k := step.obj;
      SlipInUse(w, step);
      var n := w.objs[k].name;
      if step.act.StartRuns? {
        v := SlipMakesTwo(w, n, step.act.call);
      } else {
        v := GapMakesTwo(w, n, step.act.call);
      }
    } else {
      SwapTooEarly(w, step);
      var n;
      n, k, v := EarlyReturnMakesTwo(w, step);
      HasObject(v, k);
    }
  }

  // ---------------------------------------------------------------- from a fresh start

  /**
   * The run in which a reload overtakes a start: the reconciler has queued the start of a new program, a reload sees
   * it STOPPED and replaces it, the queued goroutine forks from the old object and the reconciler starts the new one.
   */
  lemma ReloadOvertakesStart(w: World, programs: map<string, Program>, n: string, changed: Program) returns (v: World)
    requires IsInitial(w, programs) && n in programs && programs[n].dependsOn == [] && programs[n].autostart
    requires changed != programs[n] && changed.dependsOn == []
    ensures Leads(w, v) && TwoChildrenOf(v, n)
  {
    var w1 := VisitSpec(w, n);
    hide *;
    var queued := QueuedAtFirst(w, programs, n);
    LeadsNowhere(w);
    LeadsOn(w, w, Visit(n));
    OvertakeReady(w1, programs, n, changed);
    v := Overtaken(w, w1, programs[n := changed], map[n := WantRunning], [n], n);
  }

  lemma Overtaken(w: World, w1: World, programs: map<string, Program>, previous: map<string, Desired>,
                  made: seq<string>, n: string) returns (v: World)
    requires Leads(w, w1) && Inv(w1) && CanSwap(w1, programs, previous, made)
    requires n in w1.current && n in w1.programs && n in programs && n in made && programs[n].dependsOn == []
    requires Undead(w1.objs[w1.current[n]])
    ensures Leads(w, v) && TwoChildrenOf(v, n)
  {
    hide *;
    NoDependencies(w1, programs, previous, made, n);
    SwapIsStep(w1, programs, previous, made);
    LeadsOn(w, w1, Swap(programs, previous, made));
    v := DropMakesTwo(w1, programs, previous, made, n);
    LeadsFurther(w, SwapSpec(w1, programs, previous, made), v);
  }

  lemma OvertakeReady(w: World, programs: map<string, Program>, n: string, changed: Program)
    requires w.programs == programs && w.current.Keys == w.desired.Keys == programs.Keys
    requires n in programs && changed != programs[n]
    ensures CanSwap(w, programs[n := changed], map[n := WantRunning], [n])
  {
  }

  /**
   * The run in which a stop overtakes a start: a release of a new program has read STOPPED, the reconciler starts the
   * program, the release lands on the child, and the reconciler starts the program again.
   */
  lemma ReleaseOvertakesStart(w: World, programs: map<string, Program>, n: string) returns (v: World)
    requires IsInitial(w, programs) && n in programs && programs[n].dependsOn == [] && programs[n].autostart
    ensures n in w.current && Leads(w, v) && TwoChildren(v, w.current[n])
  {
    hide *;
    var slipping := ReleaseSlips(w, programs, n);
    var k := w.current[n];
    LeadsOn(w, slipping, On(k, StartRuns(0, true)));
    v := SlipMakesTwo(slipping, n, 0);
    LeadsFurther(w, Apply(slipping, On(k, StartRuns(0, true))), v);
  }

  /** The first part of that run is orderly, and then the start slips in. */
  lemma ReleaseSlips(w: World, programs: map<string, Program>, n: string) returns (v: World)
    requires IsInitial(w, programs) && n in programs && programs[n].dependsOn == [] && programs[n].autostart
    ensures n in w.current && Leads(w, v) && Inv(v) && n in v.current && v.current[n] == w.current[n] < |v.objs|
    ensures var step := On(w.current[n], StartRuns(0, true));
      && v.objs[w.current[n]].program == programs[n]
      && SlipsIn(v.objs[w.current[n]], StartRuns(0, true)) && Supplied(v, n)
      && Enabled(v, step) && Grave(v, step)
  {
    var k := w.current[n];
    var queued := QueuedAtFirst(w, programs, n);
    var w1 := VisitSpec(w, n);
    hide *;
    LeadsNowhere(w);
    LeadsOn(w, w, Visit(n));
    SlotSeen(w, programs, n);
    v := ReleasedTooLate(w, w1, programs, n);
    IsGrave(v, n, StartRuns(0, true));
  }

  lemma SlotSeen(w: World, programs: map<string, Program>, n: string)
    requires IsInitial(w, programs) && n in programs && Enabled(w, Visit(n))
    ensures n in w.current && VisitSpec(w, n).current == w.current
  {
    VisitCases(w, n);
    hide VisitSpec;
  }

  lemma IsGrave(v: World, n: string, act: Act)
    requires Shape(v) && n in v.current && v.current[n] < |v.objs| && CanAct(v.objs[v.current[n]], act)
    requires SlipsIn(v.objs[v.current[n]], act) && Supplied(v, n)
    ensures Enabled(v, On(v.current[n], act)) && Grave(v, On(v.current[n], act))
  {
    hide SlipsIn, Supplied, CanAct;
    ShapeAt(v, n);
    InUse(v, n);
  }

  lemma ReleasedTooLate(w: World, w1: World, programs: map<string, Program>, n: string) returns (v: World)
    requires Leads(w, w1) && Inv(w1) && n in w1.current && n in programs && programs[n].dependsOn == []
    requires w1.current[n] < |w1.objs| && w1.objs[w1.current[n]] == WithCall(NewObj(n, programs[n]), StartQueued)
    ensures Leads(w, v) && Inv(v) && Shape(v) && n in v.current && v.current[n] == w1.current[n] < |v.objs|
    ensures var o := v.objs[w1.current[n]];
      && o.program == programs[n] && CanAct(o, StartRuns(0, true)) && SlipsIn(o, StartRuns(0, true)) && Supplied(v, n)
  {
    var k := w1.current[n];
    var o := w1.objs[k];
    hide *;
    ReleaseReads(o, n, programs[n]);
    var v1 := OneSafeAct(w, w1, k, CalledToStop);
    SameSlot(w1, v1, n, k);
    v := OneSafeAct(w, v1, k, StopMarks(1));
    SameSlot(v1, v, n, k);
    InvShape(v);
    NothingToWaitFor(v, n);
  }

  lemma ReleaseReads(o: Obj, n: string, program: Program)
    requires o == WithCall(NewObj(n, program), StartQueued)
    ensures CanAct(o, CalledToStop) && CanAct(Next(o, CalledToStop), StopMarks(1))
    ensures !SlipsIn(o, CalledToStop) && !SlipsIn(Next(o, CalledToStop), StopMarks(1))
    ensures var q := Next(Next(o, CalledToStop), StopMarks(1));
      CanAct(q, StartRuns(0, true)) && SlipsIn(q, StartRuns(0, true)) && q.program == program
  {
    var q := Next(Next(o, CalledToStop), StopMarks(1));
    assert LandsStopped(q.calls[1]);
  }

  /**
   * The run in which a stop comes too late for a restart: a program exits and is past the cancel check after its
   * backoff when it is stopped; the reconciler starts it again, and the restart makes a second child.
   */
  lemma RestartOvertakesStop(w: World, programs: map<string, Program>, n: string) returns (v: World)
    requires IsInitial(w, programs) && n in programs && programs[n].dependsOn == [] && programs[n].autostart
    requires programs[n].autorestart == Always && programs[n].maxRestarts > 0
    ensures n in w.current && Leads(w, v) && TwoChildren(v, w.current[n])
  {
    var k := w.current[n];
    var queued := QueuedAtFirst(w, programs, n);
    var w1 := VisitSpec(w, n);
    hide *;
    LeadsNowhere(w);
    LeadsOn(w, w, Visit(n));
    v := StoppedTooLate(w, w1, programs, n);
  }

  /** A new object starts, and its child exits. */
  lemma ReachesExit(o: Obj, n: string, program: Program)
    requires o == WithCall(NewObj(n, program), StartQueued)
    ensures CanAct(o, StartRuns(0, true)) && !SlipsIn(o, StartRuns(0, true)) && Clears(o, StartRuns(0, true))
    ensures var o1 := Next(o, StartRuns(0, true));
      && CanAct(o1, ChildExits(0, ExitedWith(1), false))
      && var o2 := Next(o1, ChildExits(0, ExitedWith(1), false));
         && CanAct(o2, GivesVerdict(0)) && o2.program == program && |o2.calls| == 1
         && o2.proc.state == Starting && !o2.proc.stoppedExternally && o2.proc.restartCount == 0
         && o2.proc.runs == [Run(Reaped(1, false), true, true)]
  {
  }

  /** It is judged, its backoff passes the cancel check, and a stop is called. */
  lemma ReachesGap(o: Obj)
    requires o.program.autorestart == Always && o.program.maxRestarts > 0 && |o.calls| == 1
    requires o.proc.state == Starting && !o.proc.stoppedExternally && o.proc.restartCount == 0
    requires o.proc.runs == [Run(Reaped(1, false), true, true)]
    ensures CanAct(o, GivesVerdict(0)) && !SlipsIn(o, GivesVerdict(0))
    ensures var o1 := Next(o, GivesVerdict(0));
      && CanAct(o1, Wakes(0)) && !SlipsIn(o1, Wakes(0))
      && var o2 := Next(o1, Wakes(0));
         && CanAct(o2, CalledToStop) && !SlipsIn(o2, CalledToStop)
         && var o3 := Next(o2, CalledToStop);
            && CanAct(o3, StopMarks(1)) && o3.proc.state == Exited && o3.program == o.program
            && |o3.proc.runs| == 1 && o3.proc.runs[0].phase.Restarting?
  {
  }

  lemma StoppedTooLate(w: World, w1: World, programs: map<string, Program>, n: string) returns (v: World)
    requires Leads(w, w1) && Inv(w1) && n in w1.current && n in programs && programs[n].dependsOn == []
    requires programs[n].autorestart == Always && programs[n].maxRestarts > 0
    requires w1.current[n] < |w1.objs| && w1.objs[w1.current[n]] == WithCall(NewObj(n, programs[n]), StartQueued)
    ensures Leads(w, v) && TwoChildren(v, w1.current[n])
  {
    var k := w1.current[n];
    ReachesExit(w1.objs[k], n, programs[n]);
    QuietActs();
    InvShape(w1);
    ShapeAt(w1, n);
    hide *;
    var v1 := OneSafeAct(w, w1, k, StartRuns(0, true));
    var v2 := OneSafeAct(w, v1, k, ChildExits(0, ExitedWith(1), false));
    StaysIdle(w1, v1, v2, k, n);
    SameSlot(w1, v2, n, k);
    v := StoppedInGap(w, v2, n);
  }

  lemma StoppedInGap(w: World, v: World, n: string) returns (v': World)
    requires Leads(w, v) && Inv(v) && n in v.current && v.current[n] < |v.objs| && n !in v.busy
    requires var o := v.objs[v.current[n]];
      && o.program.autorestart == Always && o.program.maxRestarts > 0 && o.program.dependsOn == [] && |o.calls| == 1
      && o.proc.state == Starting && !o.proc.stoppedExternally && o.proc.restartCount == 0
      && o.proc.runs == [Run(Reaped(1, false), true, true)]
    ensures Leads(w, v') && TwoChildren(v', v.current[n])
  {
    var k := v.current[n];
    ReachesGap(v.objs[k]);
    hide *;
    var v1 := ThreeSafeActs(w, v, k, GivesVerdict(0), Wakes(0), CalledToStop);
    SameSlot(v, v1, n, k);
    NotBusier(v, v1, k, n);
    v' := GapLater(w, v1, n);
  }

  lemma GapSlips(o: Obj)
    requires o.proc.state == Exited && |o.proc.runs| == 1 && o.proc.runs[0].phase.Restarting?
    ensures SlipsIn(o, StopMarks(1))
  {
  }

  lemma GapLater(w: World, v: World, n: string) returns (v': World)
    requires Leads(w, v) && Inv(v) && n in v.current && v.current[n] < |v.objs| && n !in v.busy
    requires v.objs[v.current[n]].program.dependsOn == [] && v.objs[v.current[n]].proc.state == Exited
    requires |v.objs[v.current[n]].proc.runs| == 1 && v.objs[v.current[n]].proc.runs[0].phase.Restarting?
    requires CanAct(v.objs[v.current[n]], StopMarks(1))
    ensures Leads(w, v') && TwoChildren(v', v.current[n])
  {
    hide *;
    InvShape(v);
    GapSlips(v.objs[v.current[n]]);
    NothingToWaitFor(v, n);
    ActIsStep(v, v.current[n], StopMarks(1));
    LeadsOn(w, v, On(v.current[n], StopMarks(1)));
    v' := GapMakesTwo(v, n, 1);
    LeadsFurther(w, Apply(v, On(v.current[n], StopMarks(1))), v');
  }
}
