/**
 * What the restart policy of a program makes of the ends of its runs, over whole runs of the daemon: policies and exit
 * codes are compared here with what the history records.
 */
module Policy {
  import opened Common
  import opened Configuration
  import opened Blocking
  import opened Lifecycle
  import opened Objects
  import opened Supervisor
  import opened Chronicle

  // ---------------------------------------------------------------- failures

  /** e says that a run of k ended by itself in a way the policy of its program wants made good. */
  predicate IsFailure(e: Event, k: nat, program: Program) {
    && e.ExitJudged? && e.obj == k && !e.requested
    && match program.autorestart
       case Always => true
       case Unexpected => e.code != 0
       case Never => false
  }

  /** Failures of k in a row: a run that lasted begins a new row, with itself. */
  function FailuresInARow(h: seq<Event>, k: nat, program: Program): nat {
    if h == [] then 0
    else
      var e, before := h[|h| - 1], FailuresInARow(h[..|h| - 1], k, program);
      if !e.ExitJudged? || e.obj != k then before
      else (if e.long then 0 else before) + if IsFailure(e, k, program) then 1 else 0
  }

  function Min(a: nat, b: nat): nat {
    if a < b then a else b
  }

  ghost predicate Failed(h: seq<Event>, k: nat, r: nat, program: Program) {
    exists i :: 0 <= i < |h| && IsFailure(h[i], k, program) && h[i].run == r
  }

  /** Run r failed, and it was the failure in a row that attempt counts. */
  ghost predicate FailedAs(h: seq<Event>, k: nat, r: nat, program: Program, attempt: nat) {
    exists i :: 0 <= i < |h| && IsFailure(h[i], k, program) && h[i].run == r
      && attempt == FailuresInARow(h[..i + 1], k, program) <= program.maxRestarts
  }

  lemma FailedStays(h: seq<Event>, es: seq<Event>, k: nat, r: nat, program: Program, attempt: nat)
    ensures Failed(h, k, r, program) ==> Failed(h + es, k, r, program)
    ensures FailedAs(h, k, r, program, attempt) ==> FailedAs(h + es, k, r, program, attempt)
  {
    if i :| 0 <= i < |h| && IsFailure(h[i], k, program) && h[i].run == r {
      assert (h + es)[i] == h[i];
    }
    if i :| 0 <= i < |h| && IsFailure(h[i], k, program) && h[i].run == r
            && attempt == FailuresInARow(h[..i + 1], k, program) <= program.maxRestarts {
      assert (h + es)[i] == h[i] && (h + es)[..i + 1] == h[..i + 1];
    }
  }

  lemma FailedAsFailed(h: seq<Event>, k: nat, r: nat, program: Program, attempt: nat)
    requires FailedAs(h, k, r, program, attempt)
    ensures Failed(h, k, r, program)
  {
  }

  lemma RowSame(h: seq<Event>, e: Event, k: nat, program: Program)
    requires !e.ExitJudged? || e.obj != k
    ensures FailuresInARow(h + [e], k, program) == FailuresInARow(h, k, program)
  {
    assert (h + [e])[..|h|] == h;
  }

  lemma RowGrows(h: seq<Event>, e: Event, k: nat, program: Program)
    requires e.ExitJudged? && e.obj == k
    ensures FailuresInARow(h + [e], k, program) ==
            (if e.long then 0 else FailuresInARow(h, k, program)) + if IsFailure(e, k, program) then 1 else 0
  {
    assert (h + [e])[..|h|] == h;
  }

  // ---------------------------------------------------------------- one object

  /** The counter and the backoffs of an object are what its failures make of them. */
  ghost predicate Reckons(o: Obj, k: nat, h: seq<Event>) {
    && o.proc.restartCount == Min(FailuresInARow(h, k, o.program), o.program.maxRestarts)
    && (forall r :: 0 <= r < |o.proc.runs| && o.proc.runs[r].phase.Waiting? ==>
                      FailedAs(h, k, r, o.program, o.proc.runs[r].phase.attempt))
    && (forall r :: 0 <= r < |o.proc.runs| && o.proc.runs[r].phase.Restarting? ==> Failed(h, k, r, o.program))
  }

  /** o and q have the same counter, and no run has come to wait. */
  ghost predicate NoNewWaits(o: Obj, q: Obj) {
    && q.program == o.program && q.proc.restartCount == o.proc.restartCount
    && forall r :: 0 <= r < |q.proc.runs| ==>
         var phase := q.proc.runs[r].phase;
         && (phase.Waiting? ==> r < |o.proc.runs| && o.proc.runs[r].phase == phase)
         && (phase.Restarting? ==>
               r < |o.proc.runs| && (o.proc.runs[r].phase == phase || o.proc.runs[r].phase.Waiting?))
  }

  lemma OtherActsWait(o: Obj, act: Act)
    requires CanAct(o, act) && !act.GivesVerdict?
    ensures NoNewWaits(o, Next(o, act))
  {
  }

  lemma OtherEvents(k: nat, o: Obj, act: Act)
    requires CanAct(o, act) && !act.GivesVerdict?
    ensures forall e :: e in NewEvents(k, o, act) ==> e.StartAttempt?
  {
  }

  lemma ReckonsOn(o: Obj, q: Obj, k: nat, h: seq<Event>, es: seq<Event>)
    requires Reckons(o, k, h) && NoNewWaits(o, q) && |es| <= 1
    requires forall e :: e in es ==> !e.ExitJudged? || e.obj != k
    ensures Reckons(q, k, h + es)
  {
    if es == [] {
      assert h + es == h;
    } else {
      assert es == [es[0]];
      RowSame(h, es[0], k, o.program);
    }
    hide FailuresInARow, Failed, FailedAs;
    forall r | 0 <= r < |q.proc.runs|
      ensures q.proc.runs[r].phase.Waiting? ==> FailedAs(h + es, k, r, o.program, q.proc.runs[r].phase.attempt)
      ensures q.proc.runs[r].phase.Restarting? ==> Failed(h + es, k, r, o.program)
    {
      if q.proc.runs[r].phase.Waiting? {
        FailedStays(h, es, k, r, o.program, q.proc.runs[r].phase.attempt);
      } else if q.proc.runs[r].phase.Restarting? {
        if o.proc.runs[r].phase.Waiting? { FailedAsFailed(h, k, r, o.program, o.proc.runs[r].phase.attempt); }
        FailedStays(h, es, k, r, o.program, 0);
      }
    }
  }

  /** What a verdict does to its run and the counter. */
  lemma VerdictCounts(o: Obj, k: nat, r: nat)
    requires CanAct(o, GivesVerdict(r)) && o.proc.restartCount <= o.program.maxRestarts
    ensures |NewEvents(k, o, GivesVerdict(r))| == 1
    ensures var e := NewEvents(k, o, GivesVerdict(r))[0];
      var q := Next(o, GivesVerdict(r));
      var count := if e.long then 0 else o.proc.restartCount;
      var again := IsFailure(e, k, o.program) && count < o.program.maxRestarts;
      && e.ExitJudged? && e.obj == k && e.run == r && q.program == o.program
      && |q.proc.runs| == |o.proc.runs|
      && (forall i :: 0 <= i < |o.proc.runs| && i != r ==> q.proc.runs[i] == o.proc.runs[i])
      && q.proc.restartCount == (if again then count + 1 else count)
      && q.proc.runs[r].phase == if again then Waiting(count + 1) else Over
  {
  }

  lemma ReckonsVerdict(o: Obj, k: nat, h: seq<Event>, r: nat)
    requires Reckons(o, k, h) && CanAct(o, GivesVerdict(r))
    ensures Reckons(Next(o, GivesVerdict(r)), k, h + NewEvents(k, o, GivesVerdict(r)))
  {
    var q := Next(o, GivesVerdict(r));
    VerdictCounts(o, k, r);
    var e := NewEvents(k, o, GivesVerdict(r))[0];
    assert NewEvents(k, o, GivesVerdict(r)) == [e];
    RowGrows(h, e, k, o.program);
    var now := h + [e];
    assert now[..|h| + 1] == now && now[|h|] == e;
    hide FailuresInARow, NewEvents, CanAct, Next;
    forall i | 0 <= i < |q.proc.runs|
      ensures q.proc.runs[i].phase.Waiting? ==> FailedAs(now, k, i, o.program, q.proc.runs[i].phase.attempt)
      ensures q.proc.runs[i].phase.Restarting? ==> Failed(now, k, i, o.program)
    {
      if i != r {
        if q.proc.runs[i].phase.Waiting? { FailedStays(h, [e], k, i, o.program, q.proc.runs[i].phase.attempt); }
        if q.proc.runs[i].phase.Restarting? { FailedStays(h, [e], k, i, o.program, 0); }
      }
    }
  }

  lemma ReckonsAct(o: Obj, k: nat, h: seq<Event>, act: Act)
    requires Reckons(o, k, h) && CanAct(o, act)
    ensures Reckons(Next(o, act), k, h + NewEvents(k, o, act))
  {
    hide Reckons, CanAct, Next, NewEvents, NoNewWaits;
    if act.GivesVerdict? {
      ReckonsVerdict(o, k, h, act.run);
    } else {
      OtherActsWait(o, act);
      OtherEvents(k, o, act);
      ReckonsOn(o, Next(o, act), k, h, NewEvents(k, o, act));
    }
  }

  // ---------------------------------------------------------------- every run

  ghost predicate AllReckon(w: World) {
    forall k :: 0 <= k < |w.objs| ==> Reckons(w.objs[k], k, w.history)
  }

  /** Event i is no restart, or one of the last run of an object that failed, or of one of its runs that did. */
  ghost predicate IsDue(w: World, i: nat, last: bool)
    requires i < |w.history|
  {
    var e := w.history[i];
    e.StartAttempt? && e.automatic ==>
      e.obj < |w.objs| && exists r: nat ::
        Failed(w.history[..i], e.obj, r, w.objs[e.obj].program)
        && (last ==> LastStart(w.history[..i], e.obj) == Some(Some(r)))
  }

  lemma {:induction false} NobodyFailed(h: seq<Event>, k: nat, program: Program)
    requires forall e :: e in h ==> e.obj != k
    ensures FailuresInARow(h, k, program) == 0
  {
    if h != [] {
      assert h[|h| - 1] in h;
      NobodyFailed(h[..|h| - 1], k, program);
    }
  }

  lemma ReckonsStep(w: World, step: Step, j: nat)
    requires Attributed(w) && AllReckon(w) && Enabled(w, step) && j < |Apply(w, step).objs|
    ensures Reckons(Apply(w, step).objs[j], j, Apply(w, step).history)
  {
    var k, es := StepEvents(w, step);
    if j >= |w.objs| {
      NewIsNew(w, step, j);
      NobodyFailed(w.history, j, Apply(w, step).objs[j].program);
      assert w.history + es == w.history;
      hide FailuresInARow, Failed, FailedAs, Apply, Enabled;
    } else {
      ObjectsKept(w, step, j);
      assert Reckons(w.objs[j], j, w.history);
      hide Attributed, AllReckon, Reckons, CanAct, NewEvents, Clears, NextProc, CanSwap, SwapSpec, VisitSpec;
      if step.On? && step.obj == j {
        ReckonsAct(w.objs[j], j, w.history, step.act);
      } else {
        if step.Visit? && w.current[step.name] == j { CallsChangeNoProc(w, step.name); }
        ReckonsOn(w.objs[j], Apply(w, step).objs[j], j, w.history, es);
      }
    }
  }

  lemma DueStays(w: World, step: Step, i: nat, last: bool)
    requires Enabled(w, step) && i < |w.history| && IsDue(w, i, last)
    ensures i < |Apply(w, step).history| && IsDue(Apply(w, step), i, last)
  {
    var k, es := StepEvents(w, step);
    var e := w.history[i];
    if e.StartAttempt? && e.automatic { ObjectsKept(w, step, e.obj); }
    hide Apply, Enabled, Failed, LastStart, NewEvents;
    assert Apply(w, step).history[..i] == w.history[..i];
  }

  /** A restart that happens now is due; in an orderly run it is that of the last run. */
  lemma RestartIsDue(w: World, step: Step, last: bool)
    requires AllReckon(w) && Enabled(w, step) && |Apply(w, step).history| > |w.history|
    requires last ==> WellTold(w)
    ensures IsDue(Apply(w, step), |w.history|, last)
  {
    var k, es := StepEvents(w, step);
    assert es == [es[0]];
    ObjectsKept(w, step, k);
    var h := Apply(w, step).history;
    assert h[..|w.history|] == w.history && h[|w.history|] == es[0];
    if step.On? && step.act.Restarts? {
      var o := w.objs[k];
      assert Reckons(o, k, w.history) && o.proc.runs[step.act.run].Wakeable();
      if last { assert Told(o, k, w.history); }
      hide Apply, Enabled, NewEvents, Failed, LastStart, Inv, FailuresInARow, FailedAs;
    } else {
      hide Failed, LastStart, AllReckon, WellTold, Apply;
    }
  }

  ghost predicate Reckoned(w: World, last: bool) {
    Attributed(w) && AllReckon(w) && forall i :: 0 <= i < |w.history| ==> IsDue(w, i, last)
  }

  lemma AllReckonStep(w: World, step: Step)
    requires Attributed(w) && AllReckon(w) && Enabled(w, step)
    ensures AllReckon(Apply(w, step))
  {
    hide Attributed, Reckons, Enabled, Apply;
    var w' := Apply(w, step);
    forall j | 0 <= j < |w'.objs| ensures Reckons(w'.objs[j], j, w'.history) { ReckonsStep(w, step, j); }
  }

  lemma HistoryGrows(w: World, step: Step)
    requires Enabled(w, step)
    ensures |w.history| <= |Apply(w, step).history| <= |w.history| + 1
  {
    hide Apply, Enabled, NewEvents;
    var k, es := StepEvents(w, step);
  }

  lemma ReckonedStep(w: World, step: Step, last: bool)
    requires Reckoned(w, last) && Enabled(w, step) && (last ==> WellTold(w))
    ensures Reckoned(Apply(w, step), last)
  {
    var w' := Apply(w, step);
    hide Attributed, AllReckon, Enabled, Apply, WellTold, IsDue;
    AttributedStep(w, step);
    AllReckonStep(w, step);
    HistoryGrows(w, step);
    forall i | 0 <= i < |w'.history| ensures IsDue(w', i, last) {
      if i < |w.history| { DueStays(w, step, i, last); } else { RestartIsDue(w, step, last); }
    }
  }

  lemma {:induction false} ReckonedAfter(w: World, steps: seq<Step>)
    requires Reckoned(w, false) && CanRun(w, steps)
    ensures Reckoned(After(w, steps), false)
    decreases |steps|
  {
    hide Reckoned, Enabled, Apply;
    if steps != [] {
      ReckonedStep(w, steps[0], false);
      ReckonedAfter(Apply(w, steps[0]), steps[1..]);
    }
  }

  lemma {:induction false} ReckonedOrderly(w: World, steps: seq<Step>)
    requires Reckoned(w, true) && WellTold(w) && OrderlyRun(w, steps)
    ensures CanRun(w, steps) && Reckoned(After(w, steps), true)
    decreases |steps|
  {
    hide Reckoned, WellTold, Enabled, Apply, Orderly;
    if steps != [] {
      ReckonedStep(w, steps[0], true);
      WellToldStep(w, steps[0]);
      ReckonedOrderly(Apply(w, steps[0]), steps[1..]);
    }
  }

  lemma ReckonedAtFirst(programs: map<string, Program>, w: World)
    requires IsInitial(w, programs)
    ensures Reckoned(w, true) && Reckoned(w, false)
  {
    hide Shape;
  }

  // ---------------------------------------------------------------- what that says

  /**
   * In every run whatsoever, every automatic restart comes after an exit nobody asked for, with policy always, or with
   * policy unexpected and a code other than 0.
   */
  lemma RestartsFollowFailures(programs: map<string, Program>, w: World, steps: seq<Step>, i: nat) returns (j: nat)
    requires IsInitial(w, programs) && CanRun(w, steps)
    requires i < |After(w, steps).history|
    requires After(w, steps).history[i].StartAttempt? && After(w, steps).history[i].automatic
    ensures var h := After(w, steps).history; var k := h[i].obj;
      && j < i && k < |After(w, steps).objs|
      && h[j].ExitJudged? && h[j].obj == k && !h[j].requested
      && var policy := After(w, steps).objs[k].program.autorestart;
         policy == Always || (policy == Unexpected && h[j].code != 0)
  {
    ReckonedAtFirst(programs, w);
    ReckonedAfter(w, steps);
    hide CanRun, After, IsInitial, Attributed, AllReckon, LastStart;
    var v := After(w, steps);
    assert IsDue(v, i, false);
    var k := v.history[i].obj;
    var r :| Failed(v.history[..i], k, r, v.objs[k].program);
    j :| 0 <= j < |v.history[..i]| && IsFailure(v.history[..i][j], k, v.objs[k].program)
         && v.history[..i][j].run == r;
  }

  /** In an orderly run that exit is the one of the run started last. */
  lemma RestartsAreOfTheLastRun(programs: map<string, Program>, w: World, steps: seq<Step>, i: nat) returns (j: nat)
    requires IsInitial(w, programs) && OrderlyRun(w, steps) && CanRun(w, steps)
    requires i < |After(w, steps).history|
    requires After(w, steps).history[i].StartAttempt? && After(w, steps).history[i].automatic
    ensures var h := After(w, steps).history; var k := h[i].obj;
      && j < i && k < |After(w, steps).objs|
      && h[j].ExitJudged? && h[j].obj == k && !h[j].requested && LastStart(h[..i], k) == Some(Some(h[j].run))
      && var policy := After(w, steps).objs[k].program.autorestart;
         policy == Always || (policy == Unexpected && h[j].code != 0)
  {
    ReckonedAtFirst(programs, w);
    WellToldFromStart(programs, w, []);
    assert After(w, []) == w;
    ReckonedOrderly(w, steps);
    hide CanRun, OrderlyRun, After, IsInitial, Attributed, AllReckon, LastStart, WellTold;
    var v := After(w, steps);
    assert IsDue(v, i, true);
    var k := v.history[i].obj;
    var r :| Failed(v.history[..i], k, r, v.objs[k].program) && LastStart(v.history[..i], k) == Some(Some(r));
    j :| 0 <= j < |v.history[..i]| && IsFailure(v.history[..i][j], k, v.objs[k].program)
         && v.history[..i][j].run == r;
  }

  /**
   * Conversely, in every run whatsoever, a verdict on a failure goes into a backoff as long as max_restarts allows one
   * more in a row, and ends in FATAL when it does not; any other exit is final, in STOPPED if a stop was asked for.
   */
  lemma FailuresAreMadeGood(programs: map<string, Program>, w: World, steps: seq<Step>, k: nat, r: nat)
    requires IsInitial(w, programs) && CanRun(w, steps) && k < |After(w, steps).objs|
    requires CanAct(After(w, steps).objs[k], GivesVerdict(r))
    ensures var o, h := After(w, steps).objs[k], After(w, steps).history;
      var q, e := Next(o, GivesVerdict(r)), NewEvents(k, o, GivesVerdict(r))[0];
      var row := FailuresInARow(h + [e], k, o.program);
      && e.ExitJudged? && e.obj == k && e.run == r
      && if IsFailure(e, k, o.program) then
           && q.proc.state == (if row <= o.program.maxRestarts then Exited else Fatal)
           && q.proc.runs[r].phase == (if row <= o.program.maxRestarts then Waiting(row) else Over)
         else
           && q.proc.runs[r].phase == Over
           && q.proc.state == if o.proc.stoppedExternally then Stopped else Exited
  {
    ReckonedAtFirst(programs, w);
    ReckonedAfter(w, steps);
    var o, h := After(w, steps).objs[k], After(w, steps).history;
    assert Reckons(o, k, h);
    VerdictCounts(o, k, r);
    VerdictState(o, k, r);
    RowGrows(h, NewEvents(k, o, GivesVerdict(r))[0], k, o.program);
    hide CanRun, After, IsInitial, Reckoned, FailuresInARow, FailedAs, Failed, NewEvents, NextProc, CanAct;
  }

  /** And unless a stop ends that backoff, it leads to a restart, after which the object has a child again. */
  lemma BackoffLeadsToRestart(o: Obj, r: nat)
    requires CanAct(o, GivesVerdict(r)) && o.proc.runs[r].live && o.proc.runs[r].stopOpen
    requires Next(o, GivesVerdict(r)).proc.runs[r].phase.Waiting?
    ensures var q := Next(o, GivesVerdict(r));
      && CanAct(q, Wakes(r)) && CanAct(Next(q, Wakes(r)), Restarts(r, true))
      && var p := Next(Next(q, Wakes(r)), Restarts(r, true)).proc;
         && p.state == Starting && |p.runs| == |o.proc.runs| + 1 && p.runs[|o.proc.runs|].phase.Up?
  {
  }

  lemma VerdictState(o: Obj, k: nat, r: nat)
    requires CanAct(o, GivesVerdict(r))
    ensures var e, q := NewEvents(k, o, GivesVerdict(r))[0], Next(o, GivesVerdict(r)).proc;
      && e.long == o.proc.runs[r].phase.long
      && var count := if e.long then 0 else o.proc.restartCount;
      if IsFailure(e, k, o.program) then q.state == (if count < o.program.maxRestarts then Exited else Fatal)
      else q.state == if o.proc.stoppedExternally then Stopped else Exited
  {
  }

  /** In every run whatsoever, the n-th failure in a row is followed by a backoff of min(2^(n-1), 30) seconds. */
  lemma BackoffsGrow(programs: map<string, Program>, w: World, steps: seq<Step>, k: nat, r: nat) returns (i: nat)
    requires IsInitial(w, programs) && CanRun(w, steps) && k < |After(w, steps).objs|
    requires r < |After(w, steps).objs[k].proc.runs| && After(w, steps).objs[k].proc.runs[r].phase.Waiting?
    ensures var o, h := After(w, steps).objs[k], After(w, steps).history;
      && i < |h| && IsFailure(h[i], k, o.program) && h[i].run == r
      && var n := FailuresInARow(h[..i + 1], k, o.program);
      && 0 < n <= o.program.maxRestarts
      && BackoffSeconds(o.proc.runs[r].phase.attempt) == if Pow2(n - 1) <= 30 then Pow2(n - 1) else 30
  {
    ReckonedAtFirst(programs, w);
    ReckonedAfter(w, steps);
    var o, h := After(w, steps).objs[k], After(w, steps).history;
    assert Reckons(o, k, h);
    hide CanRun, After, IsInitial, Reckoned, FailuresInARow, BackoffSeconds, Pow2;
    i := WhichFailure(o, k, h, r);
    BackoffIsCapped(o.proc.runs[r].phase.attempt);
  }

  lemma WhichFailure(o: Obj, k: nat, h: seq<Event>, r: nat) returns (i: nat)
    requires Reckons(o, k, h) && r < |o.proc.runs| && o.proc.runs[r].phase.Waiting?
    ensures i < |h| && IsFailure(h[i], k, o.program) && h[i].run == r
    ensures 0 < o.proc.runs[r].phase.attempt == FailuresInARow(h[..i + 1], k, o.program) <= o.program.maxRestarts
  {
    hide FailuresInARow;
    i :| 0 <= i < |h| && IsFailure(h[i], k, o.program) && h[i].run == r
         && o.proc.runs[r].phase.attempt == FailuresInARow(h[..i + 1], k, o.program) <= o.program.maxRestarts;
    assert h[..i + 1] == h[..i] + [h[i]];
    RowGrows(h[..i], h[i], k, o.program);
  }

  /** A child that was killed is judged with a negative code and completes nothing; one that exits keeps its code. */
  lemma KilledIsNoSuccess(o: Obj, k: nat, r: nat, status: Status, long: bool)
    requires CanAct(o, ChildExits(r, status, long))
    ensures var q := Next(o, ChildExits(r, status, long));
      && CanAct(q, GivesVerdict(r)) && q.proc.health == NoCheck
      && |NewEvents(k, q, GivesVerdict(r))| == 1
      && var e := NewEvents(k, q, GivesVerdict(r))[0];
      && e.ExitJudged? && e.run == r && Next(q, GivesVerdict(r)).proc.exitCode == e.code
      && match status
         case ExitedWith(code) => e.code == code
         case KilledBy(_) => e.code < 0 && Next(q, GivesVerdict(r)).proc.completed == o.proc.completed
  {
  }

  /** A backoff that ends in STOPPING, or after a stop was marked, ends in nothing. */
  lemma StopCancelsRestart(o: Obj, r: nat)
    requires CanAct(o, Wakes(r)) && (o.proc.stoppedExternally || o.proc.state == Stopping)
    ensures Next(o, Wakes(r)).proc.runs[r].phase.Over? && (InGap(Next(o, Wakes(r)).proc) ==> InGap(o.proc))
    ensures Next(o, Wakes(r)).proc.state == o.proc.state && |Next(o, Wakes(r)).proc.runs| == |o.proc.runs|
  {
    forall i | 0 <= i < |o.proc.runs| && Next(o, Wakes(r)).proc.runs[i].phase.Restarting?
      ensures o.proc.runs[i].phase.Restarting?
    {
    }
  }

  lemma MarkedStays(o: Obj, act: Act)
    requires CanAct(o, act) && !act.StartRuns? && o.proc.stoppedExternally && !InGap(o.proc)
    ensures var p := Next(o, act).proc; p.stoppedExternally && !InGap(p) && |p.runs| == |o.proc.runs|
  {
    if act.Wakes? { StopCancelsRestart(o, act.run); }
  }

  /**
   * Whatever state an object is in, once a stop is marked and no restart is past its cancel check, nothing but a queued
   * start launches a run.
   */
  lemma {:induction false} MarkedLaunchesNothing(o: Obj, acts: seq<Act>)
    requires CanLive(o, acts) && o.proc.stoppedExternally && !InGap(o.proc)
    requires forall act :: act in acts ==> !act.StartRuns?
    ensures |Live(o, acts).proc.runs| == |o.proc.runs|
    decreases |acts|
  {
    if acts != [] {
      hide CanAct, Next, InGap;
      assert acts[0] in acts;
      MarkedStays(o, acts[0]);
      MarkedLaunchesNothing(Next(o, acts[0]), acts[1..]);
    }
  }

  // ---------------------------------------------------------------- what a stop and an exit put an end to

  lemma NoHealthStays(o: Obj, act: Act)
    requires CanAct(o, act) && o.proc.health == NoCheck && !act.StartRuns? && !act.Restarts?
    ensures Next(o, act).proc.health == NoCheck
  {
  }

  lemma {:induction false} NoHealthLives(o: Obj, acts: seq<Act>)
    requires CanLive(o, acts) && o.proc.health == NoCheck
    requires forall act :: act in acts ==> !act.StartRuns? && !act.Restarts?
    ensures Live(o, acts).proc.health == NoCheck
    decreases |acts|
  {
    if acts != [] {
      hide CanAct, Next;
      assert acts[0] in acts;
      NoHealthStays(o, acts[0]);
      NoHealthLives(Next(o, acts[0]), acts[1..]);
    }
  }

  /** Once a stop is marked or a child has exited, no probe has its say until the next run is started. */
  lemma ProbingEnds(o: Obj, act: Act, acts: seq<Act>, health: Health)
    requires CanAct(o, act) && (act.StopMarks? || act.ChildExits?) && CanLive(Next(o, act), acts)
    requires forall later :: later in acts ==> !later.StartRuns? && !later.Restarts?
    ensures Live(Next(o, act), acts).proc.health == NoCheck && !CanAct(Live(Next(o, act), acts), Probed(health))
  {
    NoHealthLives(Next(o, act), acts);
  }

  /** A stop that is over has cancelled the context it found when it began. */
  lemma ContextEnds(o: Obj, act: Act, r: nat)
    requires CanAct(o, act) && (act.StopReturns? || (act.StopLands? && LandsStopped(o.calls[act.call])))
    requires o.calls[act.call].stage.captured == Some(r) && r < |o.proc.runs|
    ensures r < |Next(o, act).proc.runs| && !Next(o, act).proc.runs[r].live
    ensures Next(o, act).calls[act.call].stage.Done?
  {
  }

  lemma MarkCaptures(o: Obj, c: nat)
    requires CanAct(o, StopMarks(c))
    ensures var stage := Next(o, StopMarks(c)).calls[c].stage;
      && stage.StopMarked? && stage.seen == o.proc.state && stage.captured == o.proc.cancel
      && stage.awaited == if o.proc.runs == [] then None else Some(|o.proc.runs| - 1)
  {
  }

  /** By what it found, it is over with STOPPED at once, or sets STOPPING and waits. */
  lemma StopLandsAs(o: Obj, c: nat)
    requires CanAct(o, StopLands(c))
    ensures var seen, q := o.calls[c].stage.seen, Next(o, StopLands(c));
      if seen in {Stopped, Exited, Fatal, Backoff} then q.proc.state == Stopped && q.calls[c].stage.Done?
      else q.proc.state == Stopping && q.calls[c].stage.StopWaiting?
  {
  }

  /** The channel the next stop will close is open. */
  ghost predicate ChannelOpen(p: Proc) {
    p.stopRequested.Some? ==> p.stopRequested.value < |p.runs| && p.runs[p.stopRequested.value].stopOpen
  }

  lemma ChannelAct(o: Obj, act: Act)
    requires CanAct(o, act) && ChannelOpen(o.proc)
    ensures ChannelOpen(NextProc(o, act))
  {
  }

  lemma ChannelStep(w: World, step: Step, k: nat)
    requires Enabled(w, step) && k < |Apply(w, step).objs|
    requires forall j :: 0 <= j < |w.objs| ==> ChannelOpen(w.objs[j].proc)
    ensures ChannelOpen(Apply(w, step).objs[k].proc)
  {
    if k >= |w.objs| {
      NewIsNew(w, step, k);
    } else {
      ObjectsKept(w, step, k);
      if step.On? && step.obj == k { ChannelAct(w.objs[k], step.act); }
      if step.Visit? && w.current[step.name] == k { CallsChangeNoProc(w, step.name); }
      hide CanAct, NextProc, NewEvents, Clears, CanSwap, SwapSpec, VisitSpec;
    }
  }

  /** The stop takes an open channel, which is closed and gone after. */
  ghost predicate ClosesOne(p: Proc, q: Proc) {
    && q.stopRequested.None?
    && (p.stopRequested.Some? ==>
          var r := p.stopRequested.value; r < |p.runs| && p.runs[r].stopOpen && r < |q.runs| && !q.runs[r].stopOpen)
  }

  lemma {:induction false} ChannelAfter(w: World, steps: seq<Step>)
    requires CanRun(w, steps) && forall j :: 0 <= j < |w.objs| ==> ChannelOpen(w.objs[j].proc)
    ensures forall j :: 0 <= j < |After(w, steps).objs| ==> ChannelOpen(After(w, steps).objs[j].proc)
    decreases |steps|
  {
    if steps != [] {
      hide Enabled, Apply, ChannelOpen;
      forall j | 0 <= j < |Apply(w, steps[0]).objs| ensures ChannelOpen(Apply(w, steps[0]).objs[j].proc) {
        ChannelStep(w, steps[0], j);
      }
      ChannelAfter(Apply(w, steps[0]), steps[1..]);
    }
  }

  /** In every run whatsoever, no stop closes a channel that has been closed before. */
  lemma ClosedOnce(programs: map<string, Program>, w: World, steps: seq<Step>, k: nat, c: nat)
    requires IsInitial(w, programs) && CanRun(w, steps)
    requires k < |After(w, steps).objs| && CanAct(After(w, steps).objs[k], StopMarks(c))
    ensures ClosesOne(After(w, steps).objs[k].proc, Next(After(w, steps).objs[k], StopMarks(c)).proc)
  {
    assert forall j :: 0 <= j < |w.objs| ==> ChannelOpen(w.objs[j].proc);
    ChannelAfter(w, steps);
    hide CanRun, After, IsInitial;
    assert ChannelOpen(After(w, steps).objs[k].proc);
  }
}
