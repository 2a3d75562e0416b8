/** What the sequence of events of a run says about the completion latch, the restart bound and start order. */
module Chronicle {
  import opened Common
  import opened Configuration
  import opened Blocking
  import opened Lifecycle
  import opened Objects
  import opened Supervisor

  // ---------------------------------------------------------------- the completion latch

  /** The most recent start of object k: none, one that failed, or one that launched a run. */
  function LastStart(h: seq<Event>, k: nat): Option<Option<nat>> {
    if h == [] then None
    else
      var e := h[|h| - 1];
      if e.StartAttempt? && e.obj == k then Some(e.launched) else LastStart(h[..|h| - 1], k)
  }

  ghost predicate JudgedClean(h: seq<Event>, k: nat, r: nat) {
    exists name, long :: ExitJudged(k, name, r, 0, false, long) in h
  }

  /** The most recent start produced a run whose exit was judged unrequested with code 0. */
  ghost predicate Latched(h: seq<Event>, k: nat) {
    exists r :: LastStart(h, k) == Some(Some(r)) && JudgedClean(h, k, r)
  }

  ghost predicate LatchOk(p: Proc, h: seq<Event>, k: nat) {
    && (p.completed <==> Latched(h, k))
    && (forall e :: e in h && e.ExitJudged? && e.obj == k ==> e.run < |p.runs| && !p.runs[e.run].Active())
    && (forall r :: 0 <= r < |p.runs| && (p.runs[r].Active() || p.runs[r].Wakeable()) ==>
                      LastStart(h, k) == Some(Some(r)))
    && (LastStart(h, k).Some? && LastStart(h, k).value.Some? ==> LastStart(h, k).value.value < |p.runs|)
    && (|p.runs| > 0 ==> LastStart(h, k).Some?)
  }

  // ---------------------------------------------------------------- the restart bound

  /** Automatic restarts of object k since its last run of at least healthyUptime. */
  function RestartsSinceLongRun(h: seq<Event>, k: nat): nat {
    if h == [] then 0
    else
      var e, before := h[|h| - 1], h[..|h| - 1];
      if e.obj != k then RestartsSinceLongRun(before, k)
      else if e.ExitJudged? then (if e.long then 0 else RestartsSinceLongRun(before, k))
      else RestartsSinceLongRun(before, k) + if e.automatic then 1 else 0
  }

  ghost predicate CountOk(p: Proc, h: seq<Event>, k: nat) {
    RestartsSinceLongRun(h, k) + (if |p.runs| > 0 && p.runs[|p.runs| - 1].Wakeable() then 1 else 0) <= p.restartCount
  }

  /**
   * A restart finds EXITED, the reconciler's start STOPPED; or either STOPPING, set late over nothing. On an object
   * that is not in use any more, a stop may have called EXITED STOPPED before the restart.
   */
  predicate StartOk(e: Event, dropped: bool) {
    e.StartAttempt? ==>
      if e.automatic then e.from in {Exited, Stopping} || (dropped && e.from == Stopped)
      else e.from in {Stopped, Stopping}
  }

  // ---------------------------------------------------------------- each kind of act

  /** q launches nothing p did not, ends nothing, and leaves the counters alone. */
  ghost predicate KeepsRuns(p: Proc, q: Proc) {
    && q.completed == p.completed && |q.runs| == |p.runs| && q.restartCount == p.restartCount
    && (forall r :: 0 <= r < |p.runs| ==> (q.runs[r].Active() <==> p.runs[r].Active()))
    && (forall r :: 0 <= r < |p.runs| && q.runs[r].Wakeable() ==> p.runs[r].Wakeable())
  }

  /** An act that records nothing and launches nothing. */
  predicate IsQuiet(act: Act) {
    !act.StartRuns? && !act.GivesVerdict? && !act.Restarts?
  }

  lemma QuietKeepsRuns(o: Obj, act: Act)
    requires CanAct(o, act) && IsQuiet(act)
    ensures KeepsRuns(o.proc, NextProc(o, act))
  {
  }

  lemma RunsTold(p: Proc, q: Proc, h: seq<Event>, k: nat)
    requires LatchOk(p, h, k) && CountOk(p, h, k) && KeepsRuns(p, q)
    ensures LatchOk(q, h, k) && CountOk(q, h, k)
  {
  }

  lemma LatchOther(p: Proc, h: seq<Event>, k: nat, e: Event)
    requires LatchOk(p, h, k) && e.obj != k
    ensures LatchOk(p, h + [e], k)
  {
  }

  lemma LatchStart(p: Proc, program: Program, h: seq<Event>, k: nat, launched: bool, e: Event)
    requires LatchOk(p, h, k) && Accepts(p)
    requires forall r :: 0 <= r < |p.runs| ==> !p.runs[r].Active() && !p.runs[r].Wakeable()
    requires e.StartAttempt? && e.obj == k && e.launched == Launched(p, StartSpec(p, program, launched))
    ensures LatchOk(StartSpec(p, program, launched), h + [e], k)
  {
    var q := StartSpec(p, program, launched);
    assert (h + [e])[..|h|] == h;
    assert LastStart(h + [e], k) == Some(Launched(p, q));
    forall r | LastStart(h + [e], k) == Some(Some(r)) ensures !JudgedClean(h + [e], k, r) {
      assert r == |p.runs|;
    }
  }

  lemma LatchJudge(p: Proc, program: Program, h: seq<Event>, k: nat, r: nat, e: Event)
    requires LatchOk(p, h, k) && Single(p, program) && r < |p.runs| && p.runs[r].phase.Reaped?
    requires e == ExitJudged(k, e.name, r, p.runs[r].phase.code, !Unrequested(p), p.runs[r].phase.long)
    ensures LatchOk(JudgeSpec(p, program, r), h + [e], k)
  {
    var q := JudgeSpec(p, program, r);
    assert p.runs[r].Active();
    assert (h + [e])[..|h|] == h;
    assert LastStart(h + [e], k) == LastStart(h, k) == Some(Some(r));
    assert !JudgedClean(h, k, r);
    assert JudgedClean(h + [e], k, r) <==> e.code == 0 && !e.requested by {
      assert e in h + [e];
    }
    assert q.completed <==> e.code == 0 && !e.requested;
    assert forall s :: 0 <= s < |p.runs| && s != r ==> q.runs[s] == p.runs[s];
  }

  lemma CountOther(h: seq<Event>, k: nat, e: Event)
    requires e.obj != k
    ensures RestartsSinceLongRun(h + [e], k) == RestartsSinceLongRun(h, k)
  {
  }

  lemma CountStart(h: seq<Event>, k: nat, e: Event)
    requires e.StartAttempt? && e.obj == k
    ensures RestartsSinceLongRun(h + [e], k) == RestartsSinceLongRun(h, k) + if e.automatic then 1 else 0
  {
  }

  /** A verdict that leads to a backoff counts it. */
  lemma JudgeCounts(p: Proc, program: Program, r: nat)
    requires Single(p, program) && r < |p.runs| && p.runs[r].phase.Reaped?
    ensures var q := JudgeSpec(p, program, r);
      && |q.runs| == |p.runs| == r + 1 && !p.runs[r].Wakeable()
      && q.restartCount >= (if p.runs[r].phase.long then 0 else p.restartCount) + if q.runs[r].Wakeable() then 1 else 0
  {
    assert p.runs[r].Active();
    hide Single;
  }

  lemma CountJudge(p: Proc, program: Program, h: seq<Event>, k: nat, r: nat, e: Event)
    requires CountOk(p, h, k) && Single(p, program) && r < |p.runs| && p.runs[r].phase.Reaped?
    requires e == ExitJudged(k, e.name, r, p.runs[r].phase.code, !Unrequested(p), p.runs[r].phase.long)
    ensures CountOk(JudgeSpec(p, program, r), h + [e], k)
  {
    JudgeCounts(p, program, r);
    assert (h + [e])[..|h|] == h;
    hide Single, JudgeSpec;
  }

  // ---------------------------------------------------------------- one object

  /** The events of k account for its latch and its restart counter. */
  ghost predicate Told(o: Obj, k: nat, h: seq<Event>) {
    LatchOk(o.proc, h, k) && CountOk(o.proc, h, k)
  }

  lemma ToldStart(o: Obj, k: nat, h: seq<Event>, c: nat, launched: bool)
    requires Spare(o) && CanAct(o, StartRuns(c, launched)) && Told(o, k, h)
    ensures Told(Next(o, StartRuns(c, launched)), k, h + NewEvents(k, o, StartRuns(c, launched)))
  {
    var p, q := o.proc, StartSpec(o.proc, o.program, launched);
    var e := StartAttempt(k, o.name, o.program.dependsOn, p.state, Launched(p, q), false);
    assert NewEvents(k, o, StartRuns(c, launched)) == [e];
    assert forall r :: 0 <= r < |p.runs| ==> !p.runs[r].Active() && !p.runs[r].Wakeable();
    LatchStart(p, o.program, h, k, launched, e);
    CountStart(h, k, e);
    hide LatchOk, Single;
  }

  lemma ToldVerdict(o: Obj, k: nat, h: seq<Event>, r: nat)
    requires Spare(o) && CanAct(o, GivesVerdict(r)) && Told(o, k, h)
    ensures Told(Next(o, GivesVerdict(r)), k, h + NewEvents(k, o, GivesVerdict(r)))
  {
    var p := o.proc;
    var e := ExitJudged(k, o.name, r, p.runs[r].phase.code, !Unrequested(p), p.runs[r].phase.long);
    LatchJudge(p, o.program, h, k, r, e);
    CountJudge(p, o.program, h, k, r, e);
    hide LatchOk, CountOk, Single, JudgeSpec;
  }

  lemma OverKeepsRuns(p: Proc, r: nat, state: State)
    requires r < |p.runs| && p.runs[r].Wakeable()
    ensures KeepsRuns(p, SetPhase(p, r, Over).(state := state))
  {
  }

  /** An automatic restart takes the run that was waiting out of the count and itself into it. */
  lemma ToldRestart(o: Obj, k: nat, h: seq<Event>, r: nat, launched: bool)
    requires Single(o.proc, o.program) && CanAct(o, Restarts(r, launched)) && Told(o, k, h)
    ensures Told(Next(o, Restarts(r, launched)), k, h + NewEvents(k, o, Restarts(r, launched)))
  {
    var p := o.proc;
    var woken := SetPhase(p, r, Over).(state := Backoff);
    var q := StartSpec(woken, o.program, launched);
    var e := StartAttempt(k, o.name, o.program.dependsOn, p.state, Launched(p, q), true);
    assert NewEvents(k, o, Restarts(r, launched)) == [e] && NextProc(o, Restarts(r, launched)) == q;
    assert p.runs[r].Wakeable();
    assert r == |p.runs| - 1;
    OverKeepsRuns(p, r, Backoff);
    hide Single, LatchOk, KeepsRuns, NewEvents;
    RunsTold(p, woken, h, k);
    WokenIsIdle(p, o.program, r);
    LatchStart(woken, o.program, h, k, launched, e);
    CountStart(h, k, e);
  }

  lemma WokenIsIdle(p: Proc, program: Program, r: nat)
    requires Single(p, program) && r < |p.runs| && p.runs[r].Wakeable()
    ensures var woken := SetPhase(p, r, Over).(state := Backoff);
      Accepts(woken) && forall i :: 0 <= i < |woken.runs| ==> !woken.runs[i].Active() && !woken.runs[i].Wakeable()
  {
  }

  lemma ToldQuiet(o: Obj, k: nat, h: seq<Event>, act: Act)
    requires CanAct(o, act) && IsQuiet(act) && Told(o, k, h)
    ensures NewEvents(k, o, act) == [] && Told(Next(o, act), k, h + NewEvents(k, o, act))
  {
    QuietKeepsRuns(o, act);
    assert h + [] == h;
    hide KeepsRuns, LatchOk, CountOk, NextProc;
    RunsTold(o.proc, NextProc(o, act), h, k);
  }

  lemma ActTold(o: Obj, k: nat, h: seq<Event>, act: Act)
    requires Spare(o) && CanAct(o, act) && Told(o, k, h)
    ensures Told(Next(o, act), k, h + NewEvents(k, o, act))
  {
    hide Told, NextProc;
    match act
    case StartRuns(c, launched) => ToldStart(o, k, h, c, launched);
    case GivesVerdict(r) => ToldVerdict(o, k, h, r);
    case Restarts(r, launched) => ToldRestart(o, k, h, r, launched);
    case _ => ToldQuiet(o, k, h, act);
  }

  lemma ToldOther(o: Obj, k: nat, h: seq<Event>, es: seq<Event>)
    requires Told(o, k, h) && |es| <= 1 && forall e :: e in es ==> e.obj != k
    ensures Told(o, k, h + es)
  {
    if es == [] {
      assert h + es == h;
    } else {
      assert es == [es[0]] && es[0].obj != k;
      LatchOther(o.proc, h, k, es[0]);
      CountOther(h, k, es[0]);
    }
  }

  lemma {:induction false} NobodyTold(h: seq<Event>, k: nat)
    requires forall e :: e in h ==> e.obj != k
    ensures LastStart(h, k) == None && RestartsSinceLongRun(h, k) == 0
  {
    if h != [] {
      assert h[|h| - 1] in h;
      NobodyTold(h[..|h| - 1], k);
    }
  }

  lemma NewTold(name: string, program: Program, k: nat, h: seq<Event>)
    requires forall e :: e in h ==> e.obj != k
    ensures Told(NewObj(name, program), k, h)
  {
    NobodyTold(h, k);
  }

  // ---------------------------------------------------------------- the order of first starts

  ghost predicate Started(h: seq<Event>, n: string) {
    exists e :: e in h && e.StartAttempt? && e.name == n
  }

  ghost predicate FinishedCleanly(h: seq<Event>, n: string) {
    exists e :: e in h && e.ExitJudged? && e.name == n && e.code == 0 && !e.requested
  }

  /** Everything in list was started, and finished if that is what it is waited on for. */
  ghost predicate DependenciesCame(h: seq<Event>, list: seq<Dependency>) {
    forall dep :: dep in list ==>
      Started(h, dep.name) && (dep.condition == Completed ==> FinishedCleanly(h, dep.name))
  }

  ghost predicate InOrder(h: seq<Event>) {
    forall i :: 0 <= i < |h| && h[i].StartAttempt? ==> DependenciesCame(h[..i], h[i].dependsOn)
  }

  lemma CameStays(h: seq<Event>, more: seq<Event>, list: seq<Dependency>)
    requires DependenciesCame(h, list)
    ensures DependenciesCame(h + more, list)
  {
  }

  lemma OrderGrows(h: seq<Event>, e: Event)
    requires InOrder(h)
    requires e.StartAttempt? ==> DependenciesCame(h, e.dependsOn)
    ensures InOrder(h + [e])
  {
    forall i | 0 <= i < |h + [e]| && (h + [e])[i].StartAttempt?
      ensures DependenciesCame((h + [e])[..i], (h + [e])[i].dependsOn)
    {
      assert (h + [e])[..i] == h[..i];
      if i == |h| { assert h[..i] == h; }
    }
  }

  /** An object that was started before had its dependencies come then. */
  lemma {:induction false} CameAtLastStart(h: seq<Event>, k: nat, name: string, list: seq<Dependency>)
    requires InOrder(h) && LastStart(h, k).Some?
    requires forall e :: e in h && e.obj == k ==> e.name == name && (e.StartAttempt? ==> e.dependsOn == list)
    ensures Started(h, name) && DependenciesCame(h, list)
  {
    var front, e := h[..|h| - 1], h[|h| - 1];
    assert e in h && h == front + [e];
    if e.StartAttempt? && e.obj == k {
      assert DependenciesCame(h[..|h| - 1], e.dependsOn);
    } else {
      OrderShrinks(h);
      CameAtLastStart(front, k, name, list);
    }
    CameStays(front, [e], list);
  }

  lemma OrderShrinks(h: seq<Event>)
    requires InOrder(h) && h != []
    ensures InOrder(h[..|h| - 1])
  {
    var front := h[..|h| - 1];
    forall i | 0 <= i < |front| && front[i].StartAttempt? ensures DependenciesCame(front[..i], front[i].dependsOn) {
      assert front[..i] == h[..i] && front[i] == h[i];
    }
  }

  // ---------------------------------------------------------------- what every run records

  /** The events say which objects they are about. */
  ghost predicate Attributed(w: World) {
    forall e :: e in w.history ==>
      && e.obj < |w.objs| && e.name == w.objs[e.obj].name
      && (e.StartAttempt? ==> e.dependsOn == w.objs[e.obj].program.dependsOn)
  }

  ghost predicate CleanExit(h: seq<Event>, k: nat) {
    exists e :: e in h && e.ExitJudged? && e.obj == k && e.code == 0 && !e.requested
  }

  /** What the state of an object says about the past, come what may. */
  ghost predicate Remembers(p: Proc, h: seq<Event>, k: nat) {
    && (|p.runs| > 0 ==> LastStart(h, k).Some?)
    && (p.completed ==> |p.runs| > 0 && CleanExit(h, k))
    && (p.state in {Starting, Running} ==> |p.runs| > 0)
    && (forall e :: e in h && e.ExitJudged? && e.obj == k ==> e.run < |p.runs|)
  }

  lemma RemembersQuiet(o: Obj, k: nat, h: seq<Event>, act: Act)
    requires CanAct(o, act) && Remembers(o.proc, h, k)
    requires !act.StartRuns? && !act.GivesVerdict? && !act.Restarts?
    ensures NewEvents(k, o, act) == [] && Remembers(NextProc(o, act), h, k)
  {
    hide LastStart, CleanExit;
  }

  /** A start, accepted or not. */
  lemma RemembersStart(p: Proc, program: Program, h: seq<Event>, k: nat, launched: bool, e: Event)
    requires Remembers(p, h, k) && Accepts(p) && e.StartAttempt? && e.obj == k
    ensures Remembers(StartSpec(p, program, launched), h + [e], k)
  {
    assert (h + [e])[..|h|] == h;
  }

  lemma RemembersVerdict(p: Proc, program: Program, h: seq<Event>, k: nat, r: nat, e: Event)
    requires Remembers(p, h, k) && r < |p.runs| && p.runs[r].phase.Reaped?
    requires e == ExitJudged(k, e.name, r, p.runs[r].phase.code, !Unrequested(p), p.runs[r].phase.long)
    ensures Remembers(JudgeSpec(p, program, r), h + [e], k)
  {
    assert (h + [e])[..|h|] == h && e in h + [e];
    assert CleanExit(h, k) ==> CleanExit(h + [e], k);
    hide LastStart;
  }

  lemma RemembersAct(o: Obj, k: nat, h: seq<Event>, act: Act)
    requires CanAct(o, act) && Remembers(o.proc, h, k)
    ensures Remembers(NextProc(o, act), h + NewEvents(k, o, act), k)
  {
    var p := o.proc;
    assert h + [] == h;
    if act.StartRuns? {
      if Accepts(p) {
        var e := StartAttempt(k, o.name, o.program.dependsOn, p.state, Launched(p, NextProc(o, act)), false);
        RemembersStart(p, o.program, h, k, act.launched, e);
      }
    } else if act.GivesVerdict? {
      var e := ExitJudged(k, o.name, act.run, p.runs[act.run].phase.code, !Unrequested(p), p.runs[act.run].phase.long);
      RemembersVerdict(p, o.program, h, k, act.run, e);
    } else if act.Restarts? {
      var woken := SetPhase(p, act.run, Over).(state := Backoff);
      var e := StartAttempt(k, o.name, o.program.dependsOn, p.state, Launched(p, NextProc(o, act)), true);
      RemembersStart(woken, o.program, h, k, act.launched, e);
    } else {
      RemembersQuiet(o, k, h, act);
    }
    hide Remembers, StartSpec, JudgeSpec;
  }

  lemma RemembersOther(p: Proc, h: seq<Event>, k: nat, es: seq<Event>)
    requires Remembers(p, h, k) && |es| <= 1 && forall e :: e in es ==> e.obj != k
    ensures Remembers(p, h + es, k)
  {
    if es == [] {
      assert h + es == h;
    } else {
      assert es == [es[0]] && es[0].obj != k && (h + es)[..|h|] == h;
      assert CleanExit(h, k) ==> CleanExit(h + es, k);
    }
  }

  ghost predicate AllRemember(w: World) {
    forall k :: 0 <= k < |w.objs| ==> Remembers(w.objs[k].proc, w.history, k)
  }

  ghost predicate QueuedCame(w: World) {
    forall k :: 0 <= k < |w.objs| && StartPending(w.objs[k].calls) ==>
      DependenciesCame(w.history, w.objs[k].program.dependsOn)
  }

  ghost predicate Recorded(w: World) {
    Shape(w) && Attributed(w) && AllRemember(w) && InOrder(w.history) && QueuedCame(w)
  }

  lemma StepEvents(w: World, step: Step) returns (k: nat, es: seq<Event>)
    requires Enabled(w, step)
    ensures Apply(w, step).history == w.history + es && |es| <= 1
    ensures step.On? ==> k == step.obj && es == NewEvents(k, w.objs[k], step.act)
    ensures !step.On? ==> es == []
    ensures forall e :: e in es ==> e.obj == k && k < |w.objs| && e.name == w.objs[k].name
    ensures forall e :: e in es && e.StartAttempt? ==> e.dependsOn == w.objs[k].program.dependsOn
  {
    hide CanAct, Next, NextProc, Clears, CanSwap, DependenciesSatisfied, Snap;
    if step.On? {
      k, es := step.obj, NewEvents(step.obj, w.objs[step.obj], step.act);
    } else {
      k, es := 0, [];
      assert w.history + [] == w.history;
      if step.Visit? { VisitCases(w, step.name); }
    }
  }

  lemma AttributedStep(w: World, step: Step)
    requires Attributed(w) && Enabled(w, step)
    ensures Attributed(Apply(w, step))
  {
    var k, es := StepEvents(w, step);
    hide Apply, Enabled, NewEvents;
    forall e | e in Apply(w, step).history
      ensures e.obj < |Apply(w, step).objs| && e.name == Apply(w, step).objs[e.obj].name
      ensures e.StartAttempt? ==> e.dependsOn == Apply(w, step).objs[e.obj].program.dependsOn
    {
      assert e in w.history || e in es;
      ObjectsKept(w, step, e.obj);
    }
  }

  lemma RemembersStep(w: World, step: Step, j: nat)
    requires Attributed(w) && AllRemember(w) && Enabled(w, step) && j < |Apply(w, step).objs|
    ensures Remembers(Apply(w, step).objs[j].proc, Apply(w, step).history, j)
  {
    var k, es := StepEvents(w, step);
    if j >= |w.objs| {
      NewIsNew(w, step, j);
      NobodyTold(w.history, j);
      assert w.history + es == w.history;
    } else {
      ObjectsKept(w, step, j);
      assert Remembers(w.objs[j].proc, w.history, j);
      hide Attributed, AllRemember, Remembers, CanAct, NewEvents, Clears, NextProc, CanSwap, SwapSpec, VisitSpec;
      if step.On? && step.obj == j {
        RemembersAct(w.objs[j], j, w.history, step.act);
      } else {
        if step.Visit? && w.current[step.name] == j { CallsChangeNoProc(w, step.name); }
        RemembersOther(w.objs[j].proc, w.history, j, es);
      }
    }
  }

  lemma CallsChangeNoProc(w: World, n: string)
    requires Enabled(w, Visit(n))
    ensures |VisitSpec(w, n).objs| == |w.objs|
    ensures VisitSpec(w, n).objs[w.current[n]].proc == w.objs[w.current[n]].proc
  {
    VisitCases(w, n);
    hide VisitSpec;
  }

  lemma NewIsNew(w: World, step: Step, j: nat)
    requires Enabled(w, step) && |w.objs| <= j < |Apply(w, step).objs|
    ensures step.Swap? && var o := Apply(w, step).objs[j]; o == NewObj(o.name, o.program)
  {
    hide CanAct, Next, NewEvents, Clears, DependenciesSatisfied, Snap, CanSwap, SwapSpec;
    assert step.Swap?;
    SwapKeys(w, step.programs, step.previous, step.made);
    SwappedObjs(w, step.programs, step.previous, step.made, j);
  }

  /** A program whose dependencies are satisfied now has had them started before. */
  lemma SatisfiedMeansCame(w: World, n: string)
    requires Recorded(w) && n in w.current && DependenciesSatisfied(Snap(w), n)
    ensures n in w.programs && DependenciesCame(w.history, w.programs[n].dependsOn)
  {
    forall dep | dep in w.programs[n].dependsOn
      ensures Started(w.history, dep.name)
      ensures dep.condition == Completed ==> FinishedCleanly(w.history, dep.name)
    {
      assert dep in DependenciesOf(Snap(w), n) && Satisfied(Snap(w), dep);
      var k := w.current[dep.name];
      assert Remembers(w.objs[k].proc, w.history, k);
      SatisfiedByObject(w.objs[k], k, w.history, dep);
    }
  }

  /** An object that satisfies dep was started, and if need be finished. */
  lemma SatisfiedByObject(o: Obj, k: nat, h: seq<Event>, dep: Dependency)
    requires Remembers(o.proc, h, k) && InOrder(h) && o.name == dep.name
    requires forall e :: e in h && e.obj == k ==>
               e.name == o.name && (e.StartAttempt? ==> e.dependsOn == o.program.dependsOn)
    requires if dep.condition == Completed then o.proc.completed else o.proc.state == Running
    ensures Started(h, dep.name) && (dep.condition == Completed ==> FinishedCleanly(h, dep.name))
  {
    hide InOrder;
    CameAtLastStart(h, k, o.name, o.program.dependsOn);
  }

  lemma OrderStep(w: World, step: Step)
    requires Recorded(w) && Enabled(w, step)
    ensures InOrder(Apply(w, step).history)
  {
    var k, es := StepEvents(w, step);
    if es == [] {
      assert w.history + es == w.history;
    } else {
      assert es == [es[0]] && es[0] in es && step.On?;
      StartsAfter(w, k, step.act);
      hide Apply, Enabled, Attributed, AllRemember, QueuedCame, NewEvents, CanAct;
      OrderGrows(w.history, es[0]);
    }
  }

  /** A queued start had its dependencies come, and a restart comes after an earlier start. */
  lemma StartsAfter(w: World, k: nat, act: Act)
    requires Recorded(w) && k < |w.objs| && CanAct(w.objs[k], act)
    ensures forall e :: e in NewEvents(k, w.objs[k], act) && e.StartAttempt? ==>
                          DependenciesCame(w.history, w.objs[k].program.dependsOn)
  {
    var o := w.objs[k];
    assert Remembers(o.proc, w.history, k);
    if act.StartRuns? {
      assert StartPending(o.calls);
    } else if act.Restarts? {
      hide AllRemember, QueuedCame, InOrder, DependenciesCame;
      CameAtLastStart(w.history, k, o.name, o.program.dependsOn);
    }
  }

  lemma QueuedStep(w: World, step: Step, j: nat)
    requires Recorded(w) && Enabled(w, step)
    requires j < |Apply(w, step).objs| && StartPending(Apply(w, step).objs[j].calls)
    ensures DependenciesCame(Apply(w, step).history, Apply(w, step).objs[j].program.dependsOn)
  {
    var k, es := StepEvents(w, step);
    if j >= |w.objs| {
      NewIsNew(w, step, j);
    } else {
      ObjectsKept(w, step, j);
      if StartPending(w.objs[j].calls) {
        hide Apply, Enabled, InOrder, Attributed, AllRemember, DependenciesCame;
        CameStays(w.history, es, w.objs[j].program.dependsOn);
      } else {
        QueuedByVisit(w, step, j);
        assert w.history + [] == w.history;
        assert w.objs[j].program == w.programs[step.name];
        hide Apply, Enabled, InOrder, Attributed, AllRemember, QueuedCame, DependenciesCame, Shape;
        SatisfiedMeansCame(w, step.name);
      }
    }
  }

  lemma QueuedByVisit(w: World, step: Step, j: nat)
    requires Enabled(w, step) && j < |w.objs| && !StartPending(w.objs[j].calls)
    requires StartPending(Apply(w, step).objs[j].calls)
    ensures step.Visit? && w.current[step.name] == j && DependenciesSatisfied(Snap(w), step.name)
  {
    ObjectsKept(w, step, j);
    if step.On? && step.obj == j {
      NoStartAdded(w.objs[j], step.act);
    } else if step.Visit? {
      VisitCases(w, step.name);
      StopAddsNoStart(w.objs[w.current[step.name]]);
      hide VisitSpec, StartPending, DependenciesSatisfied;
    }
  }

  lemma StopAddsNoStart(o: Obj)
    ensures !StartPending(o.calls) ==> !StartPending(WithCall(o, StopCalled).calls)
  {
    var calls := WithCall(o, StopCalled).calls;
    if !StartPending(o.calls) {
      forall c | 0 <= c < |calls| ensures !calls[c].stage.StartQueued? {
        if c < |o.calls| { assert !o.calls[c].stage.StartQueued?; }
      }
    }
  }

  lemma RecordedStep(w: World, step: Step)
    requires Recorded(w) && Enabled(w, step)
    ensures Recorded(Apply(w, step))
  {
    hide Shape, Attributed, InOrder, Remembers, StartPending, DependenciesCame, Apply, Enabled;
    ShapeStep(w, step);
    AttributedStep(w, step);
    OrderStep(w, step);
    forall j | 0 <= j < |Apply(w, step).objs|
      ensures Remembers(Apply(w, step).objs[j].proc, Apply(w, step).history, j)
    {
      RemembersStep(w, step, j);
    }
    forall j | 0 <= j < |Apply(w, step).objs| && StartPending(Apply(w, step).objs[j].calls)
      ensures DependenciesCame(Apply(w, step).history, Apply(w, step).objs[j].program.dependsOn)
    {
      QueuedStep(w, step, j);
    }
  }

  lemma {:induction false} RecordedAfter(w: World, steps: seq<Step>)
    requires Recorded(w) && CanRun(w, steps)
    ensures Recorded(After(w, steps))
    decreases |steps|
  {
    hide Recorded, Enabled, Apply;
    if steps != [] {
      RecordedStep(w, steps[0]);
      RecordedAfter(Apply(w, steps[0]), steps[1..]);
    }
  }

  lemma RecordedAtFirst(programs: map<string, Program>, w: World)
    requires IsInitial(w, programs)
    ensures Recorded(w)
  {
  }

  /** Every start, automatic ones included, comes after a start of each dependency; in every run whatsoever. */
  lemma StartsFollowDependencies(programs: map<string, Program>, w: World, steps: seq<Step>, i: nat)
    requires IsInitial(w, programs) && CanRun(w, steps)
    ensures var w' := After(w, steps);
      i < |w'.history| && w'.history[i].StartAttempt? ==>
        && w'.history[i].obj < |w'.objs|
        && DependenciesCame(w'.history[..i], w'.objs[w'.history[i].obj].program.dependsOn)
  {
    RecordedAtFirst(programs, w);
    RecordedAfter(w, steps);
    hide CanRun, After, IsInitial, DependenciesCame, Shape, AllRemember, QueuedCame;
    var h := After(w, steps).history;
    if i < |h| && h[i].StartAttempt? { assert h[i] in h; }
  }

  /** Index i is the first start attempt of n. */
  ghost predicate FirstStart(h: seq<Event>, n: string, i: nat) {
    && i < |h| && h[i].StartAttempt? && h[i].name == n
    && !Started(h[..i], n)
  }

  lemma {:induction false} StartedHasFirst(h: seq<Event>, n: string) returns (j: nat)
    requires Started(h, n)
    ensures FirstStart(h, n, j)
  {
    var front, last := h[..|h| - 1], h[|h| - 1];
    if Started(front, n) {
      j := StartedHasFirst(front, n);
      assert h[..j] == front[..j];
    } else {
      j := |h| - 1;
      var e :| e in h && e.StartAttempt? && e.name == n;
      assert e == last || e in front;
    }
  }

  /** First starts form a linear extension of depends_on, although no schedule is computed. */
  lemma FirstStartsAreOrdered(programs: map<string, Program>, w: World, steps: seq<Step>, n: string, i: nat,
                              dep: Dependency) returns (j: nat)
    requires IsInitial(w, programs) && CanRun(w, steps)
    requires FirstStart(After(w, steps).history, n, i)
    requires After(w, steps).history[i].obj < |After(w, steps).objs|
    requires dep in After(w, steps).objs[After(w, steps).history[i].obj].program.dependsOn
    ensures j < i && FirstStart(After(w, steps).history, dep.name, j)
    ensures dep.condition == Completed ==> FinishedCleanly(After(w, steps).history[..i], dep.name)
  {
    StartsFollowDependencies(programs, w, steps, i);
    hide CanRun, After, IsInitial, FinishedCleanly;
    var h := After(w, steps).history;
    j := StartedHasFirst(h[..i], dep.name);
    assert h[..i][..j] == h[..j];
  }

  // ---------------------------------------------------------------- what orderly runs record

  ghost predicate AllTold(w: World) {
    forall k :: 0 <= k < |w.objs| ==> Told(w.objs[k], k, w.history)
  }

  /** Every start was from a state it may be from. */
  ghost predicate StartsOk(w: World) {
    forall e :: e in w.history ==> StartOk(e, Dropped(w, e.obj))
  }

  lemma StartsOkStep(w: World, step: Step)
    requires Inv(w) && Attributed(w) && StartsOk(w) && Enabled(w, step)
    ensures StartsOk(Apply(w, step))
  {
    var k, es := StepEvents(w, step);
    forall e | e in Apply(w, step).history ensures StartOk(e, Dropped(Apply(w, step), e.obj)) {
      assert e in w.history || e in es;
      if e in es && step.On? {
        FineAt(w, {}, k);
        StartsWell(w.objs[k], k, step.act);
      }
      if Dropped(w, e.obj) { StaysDropped(w, step, e.obj); }
      hide Inv, Apply, Enabled, Dropped, NewEvents, Attributed, Spare, ObjOk;
    }
  }

  lemma StartsWell(o: Obj, k: nat, act: Act)
    requires Spare(o) && CanAct(o, act)
    ensures forall e :: e in NewEvents(k, o, act) ==> StartOk(e, true) && (ObjOk(o) ==> StartOk(e, false))
  {
    if act.Restarts? { assert o.proc.runs[act.run].Wakeable(); }
    hide RestartSpec, StartSpec, JudgeSpec, WakeSpec, StopMarkSpec, StopLandSpec, StopReturnSpec, ReapedSpec, SetPhase;
  }

  lemma ToldStep(w: World, step: Step, j: nat)
    requires Inv(w) && Attributed(w) && AllTold(w) && Enabled(w, step) && j < |Apply(w, step).objs|
    ensures Told(Apply(w, step).objs[j], j, Apply(w, step).history)
  {
    var k, es := StepEvents(w, step);
    if j >= |w.objs| {
      NewIsNew(w, step, j);
      NewTold(Apply(w, step).objs[j].name, Apply(w, step).objs[j].program, j, w.history);
      assert w.history + es == w.history;
    } else {
      ObjectsKept(w, step, j);
      FineAt(w, {}, j);
      assert Told(w.objs[j], j, w.history);
      hide Inv, Attributed, AllTold, Told, Spare, CanAct, NewEvents, Next, Clears, CanSwap, SwapSpec, VisitSpec;
      if step.On? && step.obj == j {
        ActTold(w.objs[j], j, w.history, step.act);
      } else if step.Visit? && w.current[step.name] == j {
        CallsTellNothing(w, step.name, w.history);
      } else {
        ToldOther(w.objs[j], j, w.history, es);
      }
    }
  }

  lemma CallsTellNothing(w: World, n: string, h: seq<Event>)
    requires Enabled(w, Visit(n)) && Told(w.objs[w.current[n]], w.current[n], h)
    ensures w.current[n] < |VisitSpec(w, n).objs| && Told(VisitSpec(w, n).objs[w.current[n]], w.current[n], h)
    ensures h + [] == h
  {
    CallsChangeNoProc(w, n);
    hide VisitSpec, LatchOk, CountOk;
  }

  /** What a run that has been orderly so far says about its objects. */
  ghost predicate WellTold(w: World) {
    Inv(w) && Attributed(w) && AllTold(w) && StartsOk(w)
  }

  lemma WellToldStep(w: World, step: Step)
    requires WellTold(w) && Enabled(w, step) && Orderly(w, step)
    ensures WellTold(Apply(w, step))
  {
    hide Inv, Attributed, StartsOk, Told, Apply, Enabled, Orderly;
    InvStep(w, step);
    AttributedStep(w, step);
    StartsOkStep(w, step);
    forall j | 0 <= j < |Apply(w, step).objs| ensures Told(Apply(w, step).objs[j], j, Apply(w, step).history) {
      ToldStep(w, step, j);
    }
  }

  lemma {:induction false} WellToldAfter(w: World, steps: seq<Step>)
    requires WellTold(w) && OrderlyRun(w, steps)
    ensures CanRun(w, steps) && WellTold(After(w, steps))
    decreases |steps|
  {
    hide WellTold, Enabled, Apply, Orderly;
    if steps != [] {
      WellToldStep(w, steps[0]);
      WellToldAfter(Apply(w, steps[0]), steps[1..]);
    }
  }

  lemma WellToldFromStart(programs: map<string, Program>, w: World, steps: seq<Step>)
    requires IsInitial(w, programs) && OrderlyRun(w, steps)
    ensures CanRun(w, steps) && WellTold(After(w, steps))
  {
    hide Inv, OrderlyRun, CanRun, After;
    InvInitial(w, programs);
    assert WellTold(w) by { hide Shape; }
    hide WellTold;
    WellToldAfter(w, steps);
  }

  /** The completion latch tells about the most recent run of its object, whatever happened in between. */
  lemma LatchMeansLastRunFinished(programs: map<string, Program>, w: World, steps: seq<Step>, k: nat)
    requires IsInitial(w, programs) && OrderlyRun(w, steps)
    ensures CanRun(w, steps)
    ensures var w' := After(w, steps);
      k < |w'.objs| ==> (w'.objs[k].proc.completed <==> Latched(w'.history, k))
  {
    WellToldFromStart(programs, w, steps);
    hide CanRun, After, IsInitial, OrderlyRun, Inv, Latched;
    if k < |After(w, steps).objs| { assert Told(After(w, steps).objs[k], k, After(w, steps).history); }
  }

  /** max_restarts bounds the automatic restarts of an object since its last run that lasted. */
  lemma RestartsAreBounded(programs: map<string, Program>, w: World, steps: seq<Step>, k: nat)
    requires IsInitial(w, programs) && OrderlyRun(w, steps)
    ensures CanRun(w, steps)
    ensures var w' := After(w, steps);
      k < |w'.objs| ==> RestartsSinceLongRun(w'.history, k) <= w'.objs[k].program.maxRestarts
  {
    WellToldFromStart(programs, w, steps);
    hide CanRun, After, IsInitial, OrderlyRun, LatchOk, InvBut, RestartsSinceLongRun;
    if k < |After(w, steps).objs| {
      FineAt(After(w, steps), {}, k);
      assert Told(After(w, steps).objs[k], k, After(w, steps).history);
    }
  }

  /**
   * The reconciler never starts a FATAL program, nor any other that has not been released to STOPPED; a restart comes
   * from EXITED.
   */
  lemma ReconcilerStartsOnlyStopped(programs: map<string, Program>, w: World, steps: seq<Step>, e: Event)
    requires IsInitial(w, programs) && OrderlyRun(w, steps)
    ensures CanRun(w, steps)
    ensures e in After(w, steps).history ==> StartOk(e, Dropped(After(w, steps), e.obj))
  {
    WellToldFromStart(programs, w, steps);
    hide CanRun, After, IsInitial, OrderlyRun, Inv;
  }
}
