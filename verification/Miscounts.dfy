/**
 * What Chronicle says of orderly runs fails in others: from every world an orderly run can reach, each breach leads to
 * a latch that does not tell about the last run, to more restarts than max_restarts, and to a start of a FATAL program.
 */
module Miscounts {
  import opened Common
  import opened Configuration
  import opened Blocking
  import opened Lifecycle
  import opened Objects
  import opened Supervisor
  import opened Children
  import opened Chronicle
  import opened Runs
  import opened Breaches

  // ---------------------------------------------------------------- the completion latch

  /** The latch is set, but not by the run that was started last. */
  ghost predicate LatchWrong(v: World, k: nat) {
    k < |v.objs| && v.objs[k].proc.completed && !Latched(v.history, k)
  }

  /** Two runs of the object are children and it is STARTING: the older one may exit. */
  lemma OlderExits(o: Obj, k: nat, i: nat)
    requires i < |o.proc.runs| - 1 && o.proc.runs[i].phase.Up? && o.proc.state == Starting && !o.proc.stoppedExternally
    ensures var exit := ChildExits(i, ExitedWith(0), false);
      && CanAct(o, exit) && NewEvents(k, o, exit) == []
      && var q := Next(o, exit);
         && CanAct(q, GivesVerdict(i)) && Next(q, GivesVerdict(i)).proc.completed
         && NewEvents(k, q, GivesVerdict(i)) == [ExitJudged(k, o.name, i, 0, false, false)]
  {
  }

  lemma StillNotLatched(h: seq<Event>, k: nat, last: nat, e: Event)
    requires LastStart(h, k) == Some(Some(last)) && e.ExitJudged? && e.run != last
    requires forall f :: f in h && f.ExitJudged? && f.obj == k ==> f.run < last
    ensures !Latched(h + [] + [e], k)
  {
    assert (h + [] + [e])[..|h|] == h;
    assert h + [] == h;
    forall r | LastStart(h + [e], k) == Some(Some(r)) ensures !JudgedClean(h + [e], k, r) {
      assert r == last;
    }
  }

  lemma LatchBreaks(w: World, v: World, k: nat) returns (v': World)
    requires Leads(w, v) && IsDoubled(v, k)
    ensures Leads(w, v') && LatchWrong(v', k)
  {
    var i :| Doubled(v, k, i);
    var o := v.objs[k];
    OlderExits(o, k, i);
    StillNotLatched(v.history, k, |o.proc.runs| - 1, ExitJudged(k, o.name, i, 0, false, false));
    hide CanAct, Next, NewEvents, Clears, Leads, Latched;
    v' := OneAct(w, v, k, ChildExits(i, ExitedWith(0), false));
    v' := OneAct(w, v', k, GivesVerdict(i));
  }

  // ---------------------------------------------------------------- the restart bound

  /** The program is restarted under some conditions, up to some number of times. */
  predicate MayRestart(program: Program) {
    program.autorestart != Never && program.maxRestarts > 0
  }

  ghost predicate BoundBroken(v: World, k: nat) {
    k < |v.objs| && RestartsSinceLongRun(v.history, k) > v.objs[k].program.maxRestarts
  }

  /** What starting does to an object, whoever does it. */
  predicate JustStarted(p: Proc) {
    var last := |p.runs| - 1;
    && last >= 0 && p.runs[last] == Run(Up, true, true) && p.state == Starting && !p.stoppedExternally
    && p.cancel == Some(last) && p.stopRequested == Some(last)
  }

  /** There has been one restart more than the counter knows of. */
  ghost predicate Overcount(v: World, k: nat, count: nat) {
    && k < |v.objs| && JustStarted(v.objs[k].proc) && MayRestart(v.objs[k].program)
    && v.objs[k].proc.restartCount == count <= v.objs[k].program.maxRestarts
    && RestartsSinceLongRun(v.history, k) == count + 1
  }

  /** A run exits with an error, and its backoff passes the cancel check. */
  lemma CrashWakes(o: Obj, k: nat, long: bool)
    requires JustStarted(o.proc) && MayRestart(o.program)
    requires (if long then 0 else o.proc.restartCount) < o.program.maxRestarts
    ensures var r := |o.proc.runs| - 1; var exit := ChildExits(r, ExitedWith(1), long);
      && CanAct(o, exit) && NewEvents(k, o, exit) == []
      && var o1 := Next(o, exit);
         && CanAct(o1, GivesVerdict(r))
         && NewEvents(k, o1, GivesVerdict(r)) == [ExitJudged(k, o.name, r, 1, false, long)]
         && var o2 := Next(o1, GivesVerdict(r));
            && CanAct(o2, Wakes(r)) && NewEvents(k, o2, Wakes(r)) == []
            && InRestart(o, Next(o2, Wakes(r)))
            && Next(o2, Wakes(r)).proc.restartCount == (if long then 0 else o.proc.restartCount) + 1
  {
  }

  /** q is o after its newest run exited, about to start again. */
  predicate InRestart(o: Obj, q: Obj) {
    var r := |o.proc.runs| - 1;
    && r >= 0 && |q.proc.runs| == r + 1 && q.proc.runs[r].phase.Restarting? && q.proc.state == Exited
    && (forall i :: 0 <= i < r ==> q.proc.runs[i] == o.proc.runs[i])
    && !q.proc.stoppedExternally && q.program == o.program && q.calls == o.calls && q.name == o.name
  }

  lemma RestartStarts(o: Obj, k: nat, r: nat)
    requires r < |o.proc.runs| && o.proc.runs[r].phase.Restarting?
    ensures CanAct(o, Restarts(r, true))
    ensures JustStarted(Next(o, Restarts(r, true)).proc)
    ensures Next(o, Restarts(r, true)).proc.restartCount == o.proc.restartCount
    ensures Next(o, Restarts(r, true)).program == o.program
    ensures |NewEvents(k, o, Restarts(r, true))| == 1
    ensures var e := NewEvents(k, o, Restarts(r, true))[0]; e.StartAttempt? && e.obj == k && e.automatic
  {
  }

  lemma CountVerdict(h: seq<Event>, k: nat, name: string, r: nat, code: int, requested: bool, long: bool)
    ensures RestartsSinceLongRun(h + [ExitJudged(k, name, r, code, requested, long)], k) ==
            if long then 0 else RestartsSinceLongRun(h, k)
  {
    assert (h + [ExitJudged(k, name, r, code, requested, long)])[..|h|] == h;
  }

  /** Three acts and what they leave in the history. */
  lemma CrashRuns(w: World, v: World, k: nat, long: bool) returns (v': World)
    requires Leads(w, v) && k < |v.objs| && JustStarted(v.objs[k].proc) && MayRestart(v.objs[k].program)
    requires (if long then 0 else v.objs[k].proc.restartCount) < v.objs[k].program.maxRestarts
    ensures Leads(w, v') && k < |v'.objs| && InRestart(v.objs[k], v'.objs[k])
    ensures v'.objs[k].proc.restartCount == (if long then 0 else v.objs[k].proc.restartCount) + 1
    ensures RestartsSinceLongRun(v'.history, k) == if long then 0 else RestartsSinceLongRun(v.history, k)
  {
    var o := v.objs[k];
    var r := |o.proc.runs| - 1;
    CrashWakes(o, k, long);
    CountVerdict(v.history, k, o.name, r, 1, false, long);
    hide CanAct, Next, NewEvents, Clears, Leads, InRestart, RestartsSinceLongRun, MayRestart;
    v' := OneAct(w, v, k, ChildExits(r, ExitedWith(1), long));
    assert v'.history == v.history;
    v' := OneAct(w, v', k, GivesVerdict(r));
    ghost var h := v'.history;
    v' := OneAct(w, v', k, Wakes(r));
    assert v'.history == h;
  }

  lemma RestartRuns(w: World, v: World, k: nat, r: nat) returns (v': World)
    requires Leads(w, v) && k < |v.objs| && r < |v.objs[k].proc.runs| && v.objs[k].proc.runs[r].phase.Restarting?
    ensures Leads(w, v') && k < |v'.objs| && JustStarted(v'.objs[k].proc) && v'.objs[k].program == v.objs[k].program
    ensures v'.objs[k].proc.restartCount == v.objs[k].proc.restartCount
    ensures RestartsSinceLongRun(v'.history, k) == RestartsSinceLongRun(v.history, k) + 1
  {
    RestartStarts(v.objs[k], k, r);
    hide CanAct, Next, Clears, Leads, JustStarted;
    v' := OneAct(w, v, k, Restarts(r, true));
    var e := NewEvents(k, v.objs[k], Restarts(r, true))[0];
    assert NewEvents(k, v.objs[k], Restarts(r, true)) == [e];
    CountStart(v.history, k, e);
  }

  /** One crash after the other uses up the counter, which is one behind. */
  lemma {:induction false} CrashLoop(w: World, v: World, k: nat, count: nat) returns (v': World)
    requires Leads(w, v) && Overcount(v, k, count)
    ensures Leads(w, v') && BoundBroken(v', k)
    decreases v.objs[k].program.maxRestarts - count
  {
    var limit := v.objs[k].program.maxRestarts;
    hide Leads, JustStarted, MayRestart, RestartsSinceLongRun;
    if count == limit {
      v' := v;
    } else {
      var v1 := CrashRuns(w, v, k, false);
      InRestartIs(v.objs[k], v1.objs[k]);
      var v2 := RestartRuns(w, v1, k, |v1.objs[k].proc.runs| - 1);
      assert Overcount(v2, k, count + 1);
      v' := CrashLoop(w, v2, k, count + 1);
    }
  }

  lemma InRestartIs(o: Obj, q: Obj)
    requires InRestart(o, q)
    ensures |q.proc.runs| > 0 && q.proc.runs[|q.proc.runs| - 1].phase.Restarting? && q.program == o.program
  {
  }

  /** In the gap a stop is marked, and the older run exits after a long life: the pending restart is forgotten. */
  lemma OlderResets(o: Obj, k: nat, i: nat)
    requires o.proc.state == Exited && i < |o.proc.runs| - 1 && o.proc.runs[i].phase.Up?
    requires o.proc.runs[|o.proc.runs| - 1].phase.Restarting?
    ensures var c, exit := |o.calls|, ChildExits(i, ExitedWith(0), true);
      && CanAct(o, CalledToStop) && NewEvents(k, o, CalledToStop) == []
      && var o1 := Next(o, CalledToStop);
         && CanAct(o1, StopMarks(c)) && NewEvents(k, o1, StopMarks(c)) == []
         && var o2 := Next(o1, StopMarks(c));
            && CanAct(o2, exit) && NewEvents(k, o2, exit) == []
            && var o3 := Next(o2, exit);
               && CanAct(o3, GivesVerdict(i))
               && NewEvents(k, o3, GivesVerdict(i)) == [ExitJudged(k, o.name, i, 0, true, true)]
               && var o4 := Next(o3, GivesVerdict(i));
                  && o4.proc.restartCount == 0 && |o4.proc.runs| == |o.proc.runs| && o4.program == o.program
                  && o4.proc.runs[|o.proc.runs| - 1].phase.Restarting?
  {
  }

  lemma ResetRuns(w: World, v: World, k: nat, i: nat) returns (v': World)
    requires Leads(w, v) && k < |v.objs| && v.objs[k].proc.state == Exited
    requires i < |v.objs[k].proc.runs| - 1 && v.objs[k].proc.runs[i].phase.Up?
    requires v.objs[k].proc.runs[|v.objs[k].proc.runs| - 1].phase.Restarting?
    ensures Leads(w, v') && k < |v'.objs| && v'.objs[k].program == v.objs[k].program
    ensures v'.objs[k].proc.restartCount == 0 && |v'.objs[k].proc.runs| == |v.objs[k].proc.runs|
    ensures v'.objs[k].proc.runs[|v.objs[k].proc.runs| - 1].phase.Restarting?
    ensures RestartsSinceLongRun(v'.history, k) == 0
  {
    var o := v.objs[k];
    OlderResets(o, k, i);
    hide CanAct, Next, NewEvents, Clears, Leads, RestartsSinceLongRun;
    v' := OneAct(w, v, k, CalledToStop);
    v' := OneAct(w, v', k, StopMarks(|o.calls|));
    v' := OneAct(w, v', k, ChildExits(i, ExitedWith(0), true));
    CountVerdict(v'.history, k, o.name, i, 0, true, true);
    v' := OneAct(w, v', k, GivesVerdict(i));
  }

  lemma BoundBreaks(w: World, v: World, k: nat) returns (v': World)
    requires Leads(w, v) && IsDoubled(v, k) && MayRestart(v.objs[k].program)
    ensures Leads(w, v') && BoundBroken(v', k)
  {
    var i: nat :| Doubled(v, k, i);
    var last := |v.objs[k].proc.runs| - 1;
    hide Leads, RestartsSinceLongRun, LastStart;
    var v1 := CrashRuns(w, v, k, true);
    assert v1.objs[k].proc.runs[i] == v.objs[k].proc.runs[i];
    var v2 := ResetRuns(w, v1, k, i);
    var v3 := RestartRuns(w, v2, k, last);
    v' := CrashLoop(w, v3, k, 0);
  }

  /** A program that is not to be restarted is not, in whatever run. */
  ghost predicate Unrestarted(w: World, k: nat)
    requires k < |w.objs|
  {
    !MayRestart(w.objs[k].program) ==>
      && (forall r :: 0 <= r < |w.objs[k].proc.runs| ==>
                        !w.objs[k].proc.runs[r].phase.Waiting? && !w.objs[k].proc.runs[r].phase.Restarting?)
      && (forall e :: e in w.history && e.StartAttempt? && e.obj == k ==> !e.automatic)
  }

  ghost predicate AllUnrestarted(w: World) {
    forall k :: 0 <= k < |w.objs| ==> Unrestarted(w, k)
  }

  lemma NeverWaits(o: Obj, k: nat, act: Act)
    requires CanAct(o, act) && !MayRestart(o.program)
    requires forall r :: 0 <= r < |o.proc.runs| ==> !o.proc.runs[r].phase.Waiting? && !o.proc.runs[r].phase.Restarting?
    ensures var p := NextProc(o, act);
      forall r :: 0 <= r < |p.runs| ==> !p.runs[r].phase.Waiting? && !p.runs[r].phase.Restarting?
    ensures forall e :: e in NewEvents(k, o, act) && e.StartAttempt? ==> !e.automatic
  {
  }

  lemma UnrestartedStep(w: World, step: Step, k: nat)
    requires AllUnrestarted(w) && Attributed(w) && Enabled(w, step) && k < |Apply(w, step).objs|
    ensures Unrestarted(Apply(w, step), k)
  {
    var j, es := StepEvents(w, step);
    if k >= |w.objs| {
      NewIsNew(w, step, k);
      hide Apply, Enabled, MayRestart, AllUnrestarted;
    } else {
      ObjectsKept(w, step, k);
      assert Unrestarted(w, k);
      if step.On? && step.obj == k && !MayRestart(w.objs[k].program) { NeverWaits(w.objs[k], k, step.act); }
      if step.Visit? && w.current[step.name] == k { CallsChangeNoProc(w, step.name); }
      hide MayRestart, AllUnrestarted, Attributed, CanAct, NextProc, NewEvents, Clears, CanSwap, SwapSpec, VisitSpec;
    }
  }

  lemma {:induction false} UnrestartedAfter(w: World, steps: seq<Step>)
    requires AllUnrestarted(w) && Attributed(w) && CanRun(w, steps)
    ensures AllUnrestarted(After(w, steps))
    decreases |steps|
  {
    if steps != [] {
      hide Unrestarted, Attributed, Enabled, Apply;
      var w1 := Apply(w, steps[0]);
      forall k | 0 <= k < |w1.objs| ensures Unrestarted(w1, k) { UnrestartedStep(w, steps[0], k); }
      AttributedStep(w, steps[0]);
      UnrestartedAfter(w1, steps[1..]);
    }
  }

  lemma {:induction false} NoneCounted(h: seq<Event>, k: nat)
    requires forall e :: e in h && e.StartAttempt? && e.obj == k ==> !e.automatic
    ensures RestartsSinceLongRun(h, k) == 0
  {
    if h != [] {
      assert h[|h| - 1] in h;
      NoneCounted(h[..|h| - 1], k);
    }
  }

  /** The bound holds in every run whatsoever for programs with policy never or max_restarts 0. */
  lemma UnrestartedIsBounded(programs: map<string, Program>, w: World, steps: seq<Step>, k: nat)
    requires IsInitial(w, programs) && CanRun(w, steps)
    ensures var w' := After(w, steps);
      k < |w'.objs| && !MayRestart(w'.objs[k].program) ==> !BoundBroken(w', k)
  {
    assert AllUnrestarted(w) && Attributed(w) by { hide Shape; }
    hide CanRun, After, IsInitial, MayRestart;
    UnrestartedAfter(w, steps);
    if k < |After(w, steps).objs| && !MayRestart(After(w, steps).objs[k].program) {
      assert Unrestarted(After(w, steps), k);
      NoneCounted(After(w, steps).history, k);
    }
  }

  // ---------------------------------------------------------------- starts of what is not STOPPED

  /** The reconciler has started the program of k from the state given. */
  ghost predicate ReconcilerStarted(v: World, k: nat, from: State) {
    exists e :: e in v.history && e.StartAttempt? && !e.automatic && e.obj == k && e.from == from
  }

  lemma StartRecorded(v: World, v': World, k: nat, c: nat, launched: bool)
    requires k < |v.objs| && CanAct(v.objs[k], StartRuns(c, launched)) && Accepts(v.objs[k].proc)
    requires v'.history == v.history + NewEvents(k, v.objs[k], StartRuns(c, launched))
    ensures ReconcilerStarted(v', k, v.objs[k].proc.state)
  {
    var e := NewEvents(k, v.objs[k], StartRuns(c, launched))[0];
    assert e in v'.history;
  }

  lemma FailsFromGap(o: Obj, r: nat)
    requires r < |o.proc.runs| && o.proc.runs[r].phase.Restarting?
    ensures var q := WithCall(o, StartQueued);
      && CanAct(q, Restarts(r, false))
      && var q1 := Next(q, Restarts(r, false));
         CanAct(q1, StartRuns(|o.calls|, true)) && q1.proc.state == Fatal && Accepts(q1.proc)
  {
  }

  /** A restart that fails turns a program FATAL whose start is queued. */
  lemma GapStartsFatal(w: World, v: World, n: string, r: nat) returns (v': World)
    requires Leads(w, v) && Startable(v, n)
    requires r < |v.objs[v.current[n]].proc.runs| && v.objs[v.current[n]].proc.runs[r].phase.Restarting?
    ensures Leads(w, v') && ReconcilerStarted(v', v.current[n], Fatal)
  {
    var k := v.current[n];
    var o := v.objs[k];
    FailsFromGap(o, r);
    var v1 := QueuesStart(w, v, n);
    assert v1.objs[k] == WithCall(o, StartQueued);
    hide CanAct, Next, Clears, NewEvents, Leads, Startable, WithCall, ReconcilerStarted;
    var v2 := OneAct(w, v1, k, Restarts(r, false));
    v' := OneAct(w, v2, k, StartRuns(|o.calls|, true));
    StartRecorded(v2, v', k, |o.calls|, true);
  }

  lemma FailsOverChild(o: Obj, r: nat)
    requires o.proc.state == Stopped && !o.proc.stoppedExternally && r < |o.proc.runs| && o.proc.runs[r].phase.Up?
    requires !MayRestart(o.program)
    ensures var q := WithCall(o, StartQueued);
      && CanAct(q, ChildExits(r, ExitedWith(1), false))
      && var q1 := Next(q, ChildExits(r, ExitedWith(1), false));
         && CanAct(q1, GivesVerdict(r))
         && var q2 := Next(q1, GivesVerdict(r));
            && CanAct(q2, StartRuns(|o.calls|, true)) && Accepts(q2.proc)
            && q2.proc.state == if o.program.autorestart == Never then Exited else Fatal
  {
  }

  /** A child that exits under STOPPED turns a program EXITED or FATAL whose start is queued. */
  lemma OverChildStarts(w: World, v: World, n: string, r: nat) returns (v': World)
    requires Leads(w, v) && Startable(v, n) && IsChild(v, v.current[n], r)
    requires !v.objs[v.current[n]].proc.stoppedExternally && !MayRestart(v.objs[v.current[n]].program)
    ensures Leads(w, v')
    ensures var k := v.current[n];
      ReconcilerStarted(v', k, if v.objs[k].program.autorestart == Never then Exited else Fatal)
  {
    var k := v.current[n];
    var o := v.objs[k];
    FailsOverChild(o, r);
    var v1 := QueuesStart(w, v, n);
    assert v1.objs[k] == WithCall(o, StartQueued);
    hide CanAct, Next, Clears, NewEvents, Leads, Startable, WithCall, ReconcilerStarted, MayRestart;
    var v2 := OneAct(w, v1, k, ChildExits(r, ExitedWith(1), false));
    var v3 := OneAct(w, v2, k, GivesVerdict(r));
    v' := OneAct(w, v3, k, StartRuns(|o.calls|, true));
    StartRecorded(v3, v', k, |o.calls|, true);
  }

  /** The child of a start that slipped in dies before the stop lands; its backoff passes the cancel check. */
  lemma SlipReachesGap(w: World, n: string, c: nat) returns (v: World)
    requires Inv(w) && n in w.current && Enabled(w, On(w.current[n], StartRuns(c, true)))
    requires SlipsIn(w.objs[w.current[n]], StartRuns(c, true)) && Supplied(w, n)
    requires MayRestart(w.objs[w.current[n]].program)
    ensures Leads(Apply(w, On(w.current[n], StartRuns(c, true))), v) && v.current == w.current
    ensures Startable(v, n) && InGap(v.objs[v.current[n]].proc)
  {
    var k := w.current[n];
    var w1 := Apply(w, On(k, StartRuns(c, true)));
    UsedOk(w, n);
    ShapeAt(w, n);
    hide *;
    var m := SlipMade(w, n, c);
    LeadsNowhere(w1);
    var v1 := CrashStays(w1, k, m);
    GapLands(v1.objs[k], m);
    v := OneAct(w1, v1, k, StopLands(m));
    StaysSupplied(w, w, w1, k, n);
    StaysSupplied(w, w1, v1, k, n);
    StaysSupplied(w, v1, v, k, n);
    StillThere(w1, v1, k, n);
    StillThere(v1, v, k, n);
    SuppliedStarts(v, n);
  }

  /** After the start: its child is the newest run, and the stop is yet to land. */
  lemma SlipMade(w: World, n: string, c: nat) returns (m: nat)
    requires Inv(w) && n in w.current && Enabled(w, On(w.current[n], StartRuns(c, true)))
    requires SlipsIn(w.objs[w.current[n]], StartRuns(c, true))
    ensures var k, w1 := w.current[n], Apply(w, On(w.current[n], StartRuns(c, true)));
      && k < |w1.objs| && JustStarted(w1.objs[k].proc) && m < |w1.objs[k].calls| && LandsStopped(w1.objs[k].calls[m])
      && OnlyAt(w, w1, k) && n in w1.current && n in w1.desired && w1.current == w.current && n !in w1.busy
      && w1.objs[k].program == w.objs[k].program
  {
    var k := w.current[n];
    var o := w.objs[k];
    m :| 0 <= m < |o.calls| && LandsStopped(o.calls[m]);
    UsedOk(w, n);
    ShapeAt(w, n);
    SlipStarts(o, c, m);
    FirstOnlyAt(w, k, StartRuns(c, true));
    hide Inv, ObjOk, CanAct, Next, Clears, Apply, Enabled, JustStarted;
  }

  lemma SlipStarts(o: Obj, c: nat, m: nat)
    requires ObjOk(o) && CanAct(o, StartRuns(c, true)) && m < |o.calls| && LandsStopped(o.calls[m])
    ensures Clears(o, StartRuns(c, true)) && JustStarted(Next(o, StartRuns(c, true)).proc)
    ensures m < |Next(o, StartRuns(c, true)).calls| && LandsStopped(Next(o, StartRuns(c, true)).calls[m])
  {
  }

  lemma CrashStays(w: World, k: nat, m: nat) returns (v: World)
    requires k < |w.objs| && JustStarted(w.objs[k].proc) && MayRestart(w.objs[k].program)
    requires m < |w.objs[k].calls| && LandsStopped(w.objs[k].calls[m])
    ensures Leads(w, v) && OnlyAt(w, v, k) && k < |v.objs| && InGap(v.objs[k].proc)
    ensures m < |v.objs[k].calls| && LandsStopped(v.objs[k].calls[m])
  {
    var o := w.objs[k];
    var r := |o.proc.runs| - 1;
    CrashWakes(o, k, true);
    hide CanAct, Next, NewEvents, Clears, Leads, JustStarted, MayRestart, LandsStopped;
    LeadsNowhere(w);
    v := OneAct(w, w, k, ChildExits(r, ExitedWith(1), true));
    v := OneAct(w, v, k, GivesVerdict(r));
    v := OneAct(w, v, k, Wakes(r));
    assert v.objs[k].proc.runs[r].phase.Restarting?;
  }

  lemma SlipStartsFailed(w: World, n: string, c: nat) returns (v: World)
    requires Inv(w) && n in w.current && Enabled(w, On(w.current[n], StartRuns(c, true)))
    requires SlipsIn(w.objs[w.current[n]], StartRuns(c, true)) && Supplied(w, n)
    ensures Leads(Apply(w, On(w.current[n], StartRuns(c, true))), v)
    ensures ReconcilerStarted(v, w.current[n],
                              if w.objs[w.current[n]].program.autorestart == Never then Exited else Fatal)
  {
    var k := w.current[n];
    var w1 := Apply(w, On(k, StartRuns(c, true)));
    NeverIsNoRestart(w.objs[k].program);
    hide *;
    if MayRestart(w.objs[k].program) {
      var gap := SlipReachesGap(w, n, c);
      var r := GapAt(gap.objs[k].proc);
      v := GapStartsFatal(w1, gap, n, r);
    } else {
      var stopped := SlipHidesChild(w, n, c);
      OnlyAtKeeps(w, stopped, k);
      v := OverChildStarts(w1, stopped, n, |w.objs[k].proc.runs|);
    }
  }

  lemma NeverIsNoRestart(program: Program)
    ensures program.autorestart == Never ==> !MayRestart(program)
  {
  }

  lemma OnlyAtKeeps(v: World, v': World, k: nat)
    requires OnlyAt(v, v', k)
    ensures k < |v'.objs| && v'.current == v.current && v'.objs[k].program == v.objs[k].program
  {
  }

  lemma GapStartsFailed(w: World, n: string, c: nat) returns (v: World)
    requires Inv(w) && n in w.current && Enabled(w, On(w.current[n], StopMarks(c)))
    requires SlipsIn(w.objs[w.current[n]], StopMarks(c)) && Supplied(w, n)
    ensures Leads(Apply(w, On(w.current[n], StopMarks(c))), v) && ReconcilerStarted(v, w.current[n], Fatal)
  {
    hide *;
    var stopped, revived := GapUndoesStop(w, n, c);
    var r := GapAt(stopped.objs[w.current[n]].proc);
    v := GapStartsFatal(Apply(w, On(w.current[n], StopMarks(c))), stopped, n, r);
  }

  lemma FirstFails(o: Obj)
    requires o.proc == NEW_PROC && |o.calls| == 2 && o.calls[0].stage.StartQueued? && o.calls[1].stage.StartQueued?
    ensures CanAct(o, StartRuns(0, false))
    ensures var q := Next(o, StartRuns(0, false));
      CanAct(q, StartRuns(1, true)) && q.proc.state == Fatal && Accepts(q.proc)
  {
  }

  /** Of two queued starts the first fails. */
  lemma TwiceStartsFatal(w: World, v: World, k: nat) returns (v': World)
    requires Leads(w, v) && QueuedTwice(v, k)
    ensures Leads(w, v') && ReconcilerStarted(v', k, Fatal)
  {
    FirstFails(v.objs[k]);
    hide CanAct, Next, Clears, NewEvents, Leads, ReconcilerStarted;
    var v1 := OneAct(w, v, k, StartRuns(0, false));
    v' := OneAct(w, v1, k, StartRuns(1, true));
    StartRecorded(v1, v', k, 1, true);
  }

  // ---------------------------------------------------------------- every breach

  /** From every world an orderly run can reach, each breach leads to a latch that does not tell about the last run. */
  lemma DisorderBreaksLatch(w: World, step: Step) returns (k: nat, v: World)
    requires Inv(w) && Recorded(w) && Enabled(w, step) && Grave(w, step)
    ensures Leads(Apply(w, step), v) && LatchWrong(v, k)
  {
    hide *;
    var two;
    k, two := DisorderMakesTwo(w, step);
    v := LatchBreaks(Apply(w, step), two, k);
  }

  /** It leads to more automatic restarts than max_restarts allows, if the program may be restarted at all. */
  lemma DisorderBreaksBound(w: World, step: Step) returns (k: nat, v: World)
    requires Inv(w) && Recorded(w) && Enabled(w, step) && Grave(w, step)
    requires step.On? ==> MayRestart(w.objs[step.obj].program)
    ensures Leads(Apply(w, step), v) && BoundBroken(v, k)
  {
    AlwaysMayRestart();
    hide *;
    var two;
    k, two := DisorderMakesTwo(w, step);
    v := BoundBreaks(Apply(w, step), two, k);
  }

  lemma AlwaysMayRestart()
    ensures forall p: Program :: p.autorestart == Always && p.maxRestarts == 1 ==> MayRestart(p)
  {
  }

  /**
   * It leads to a start by the reconciler of a FATAL program; of an EXITED one, if the breach is a start that slips in
   * and the program is never restarted.
   */
  lemma DisorderStartsFailed(w: World, step: Step) returns (k: nat, v: World)
    requires Inv(w) && Enabled(w, step) && Grave(w, step)
    ensures Leads(Apply(w, step), v)
    ensures ReconcilerStarted(v, k, Fatal)
            || (step.On? && w.objs[step.obj].program.autorestart == Never && ReconcilerStarted(v, k, Exited))
  {
    GraveIs(w, step);
    hide *;
    InvShape(w);
    if step.On? {
      k := step.obj;
      SlipInUse(w, step);
      var n := w.objs[k].name;
      if step.act.StartRuns? {
        v := SlipStartsFailed(w, n, step.act.call);
      } else {
        v := GapStartsFailed(w, n, step.act.call);
      }
    } else {
      SwapTooEarly(w, step);
      var n, queued;
      n, k, queued := EarlyReturnQueuesTwo(w, step);
      v := TwiceStartsFatal(Apply(w, step), queued, k);
    }
  }

  lemma GraveIs(w: World, step: Step)
    requires Enabled(w, step) && Grave(w, step)
    ensures !Orderly(w, step) && (step.On? ==> Supplied(w, w.objs[step.obj].name))
  {
  }

  // ---------------------------------------------------------------- from a fresh start

  /** A configuration with a program that is started at once, and the run to a start of it that slips in. */
  lemma SlipsFromStart(w: World, programs: map<string, Program>, n: string) returns (v: World, step: Step)
    requires IsInitial(w, programs) && n in programs && programs[n].dependsOn == [] && programs[n].autostart
    ensures Leads(w, v) && Inv(v) && Recorded(v) && Enabled(v, step) && Grave(v, step) && Leads(w, Apply(v, step))
    ensures step.On? && step.obj < |v.objs| && v.objs[step.obj].program == programs[n]
  {
    hide *;
    RecordedAtFirst(programs, w);
    v := ReleaseSlips(w, programs, n);
    LeadsRecorded(w, v);
    step := On(w.current[n], StartRuns(0, true));
    LeadsOn(w, v, step);
  }

  /** In every such configuration there is a run after which a latch is set that is not the last run's. */
  lemma LatchFailsFromStart(w: World, programs: map<string, Program>, n: string) returns (k: nat, v: World)
    requires IsInitial(w, programs) && n in programs && programs[n].dependsOn == [] && programs[n].autostart
    ensures Leads(w, v) && LatchWrong(v, k)
  {
    hide *;
    var slips, step := SlipsFromStart(w, programs, n);
    k, v := DisorderBreaksLatch(slips, step);
    LeadsFurther(w, Apply(slips, step), v);
  }

  /** If the program may be restarted, there is one with too many restarts. */
  lemma BoundFailsFromStart(w: World, programs: map<string, Program>, n: string) returns (k: nat, v: World)
    requires IsInitial(w, programs) && n in programs && programs[n].dependsOn == [] && programs[n].autostart
    requires MayRestart(programs[n])
    ensures Leads(w, v) && BoundBroken(v, k)
  {
    hide *;
    var slips, step := SlipsFromStart(w, programs, n);
    k, v := DisorderBreaksBound(slips, step);
    LeadsFurther(w, Apply(slips, step), v);
  }

  /** If its policy is not never, there is one in which the reconciler starts it while it is FATAL. */
  lemma FatalStartedFromStart(w: World, programs: map<string, Program>, n: string) returns (k: nat, v: World)
    requires IsInitial(w, programs) && n in programs && programs[n].dependsOn == [] && programs[n].autostart
    requires programs[n].autorestart != Never
    ensures Leads(w, v) && ReconcilerStarted(v, k, Fatal)
  {
    hide *;
    var slips, step := SlipsFromStart(w, programs, n);
    k, v := DisorderStartsFailed(slips, step);
    LeadsFurther(w, Apply(slips, step), v);
  }
}
