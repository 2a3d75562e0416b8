/**
 * internal/process/process.go: a stop that read a running state sets STOPPING whatever happened since. When the
 * run was judged in between there is nothing left that could end STOPPING.
 */
module Stranding {
  import opened Common
  import opened Configuration
  import opened Blocking
  import opened Lifecycle
  import opened Objects
  import opened Supervisor
  import opened Children
  import opened Chronicle
  import opened Runs

  /** Between the halves of stop c, whose first half saw run r up: judged says whether r has had its verdict. */
  ghost predicate Between(o: Obj, r: nat, c: nat, judged: bool) {
    && |o.proc.runs| == r + 1 && o.proc.stoppedExternally && !StartPending(o.calls)
    && c < |o.calls| && o.calls[c].stage.StopMarked? && !ReadsStopped(o.calls[c].stage.seen)
    && (forall i :: 0 <= i < r ==> !o.proc.runs[i].Active() && !o.proc.runs[i].Wakeable())
    && !o.proc.runs[r].stopOpen && !o.proc.runs[r].phase.Restarting? && (o.proc.runs[r].Active() <==> !judged)
  }

  lemma BetweenStarts(o: Obj, c: nat)
    requires ObjOk(o) && o.proc.state in {Starting, Running} && CanAct(o, StopMarks(c))
    ensures |o.proc.runs| > 0 && Between(Next(o, StopMarks(c)), |o.proc.runs| - 1, c, false)
  {
    var calls := Next(o, StopMarks(c)).calls;
    assert o.proc.runs[|o.proc.runs| - 1].Active();
    forall i | 0 <= i < |calls| ensures !calls[i].stage.StartQueued? { assert !o.calls[i].stage.StartQueued?; }
  }

  lemma BetweenStep(o: Obj, r: nat, c: nat, judged: bool, act: Act)
    requires Between(o, r, c, judged) && CanAct(o, act) && act != StopLands(c)
    ensures Between(Next(o, act), r, c, judged || act == GivesVerdict(r))
  {
    assert !act.StartRuns?;
    NoStartAdded(o, act);
    hide StartPending;
  }

  lemma {:induction false} BetweenAfter(o: Obj, r: nat, c: nat, judged: bool, acts: seq<Act>)
    requires Between(o, r, c, judged) && CanLive(o, acts) && StopLands(c) !in acts
    ensures Between(Live(o, acts), r, c, judged || GivesVerdict(r) in acts)
    decreases |acts|
  {
    if acts != [] {
      hide Between, CanAct, Next;
      assert acts[0] in acts && acts == [acts[0]] + acts[1..];
      BetweenStep(o, r, c, judged, acts[0]);
      BetweenAfter(Next(o, acts[0]), r, c, judged || acts[0] == GivesVerdict(r), acts[1..]);
    }
  }

  /**
   * A stop of a program that was up, landing after whatever its object did meanwhile: it leaves the program in
   * STOPPING with nothing pending exactly when the verdict on its run fell between the two halves.
   */
  lemma StrandsIffJudged(o: Obj, c: nat, acts: seq<Act>)
    requires ObjOk(o) && o.proc.state in {Starting, Running} && CanAct(o, StopMarks(c))
    requires CanLive(Next(o, StopMarks(c)), acts) && StopLands(c) !in acts
    ensures |o.proc.runs| > 0
    ensures var now := Live(Next(o, StopMarks(c)), acts);
      && CanAct(now, StopLands(c))
      && Next(now, StopLands(c)).proc.state == Stopping
      && (NothingPending(Next(now, StopLands(c)).proc) <==> GivesVerdict(|o.proc.runs| - 1) in acts)
  {
    var r := |o.proc.runs| - 1;
    BetweenStarts(o, c);
    BetweenAfter(Next(o, StopMarks(c)), r, c, false, acts);
    LandsBetween(Live(Next(o, StopMarks(c)), acts), r, c, GivesVerdict(r) in acts);
  }

  lemma LandsBetween(o: Obj, r: nat, c: nat, judged: bool)
    requires Between(o, r, c, judged)
    ensures CanAct(o, StopLands(c)) && Next(o, StopLands(c)).proc.state == Stopping
    ensures NothingPending(Next(o, StopLands(c)).proc) <==> judged
  {
    var p := Next(o, StopLands(c)).proc;
    assert p.runs == o.proc.runs;
    if !judged { assert p.runs[r].Active(); }
  }

  /** STOPPING, with nothing under way that could end it. */
  ghost predicate IsStranded(o: Obj) {
    && o.proc.state == Stopping && NothingPending(o.proc) && !StartPending(o.calls)
    && forall c :: 0 <= c < |o.calls| ==> !LandsStopped(o.calls[c])
  }

  ghost predicate Stranded(w: World, n: string) {
    n in w.current && w.current[n] < |w.objs| && IsStranded(w.objs[w.current[n]])
  }

  lemma StaysStranded(o: Obj, act: Act)
    requires IsStranded(o) && CanAct(o, act)
    ensures IsStranded(Next(o, act))
  {
    NoStartAdded(o, act);
    NextQuiet(o, act);
    var calls := Next(o, act).calls;
    hide StartPending, NothingPending;
    forall c | 0 <= c < |calls| ensures !LandsStopped(calls[c]) {
      if c < |o.calls| { assert !LandsStopped(o.calls[c]); }
    }
  }

  lemma StrandedStep(w: World, step: Step, n: string)
    requires Shape(w) && Stranded(w, n) && Enabled(w, step)
    requires step.Swap? ==> n in step.programs && n !in step.made
    ensures Stranded(Apply(w, step), n)
  {
    var k := w.current[n];
    ObjectsKept(w, step, k);
    OwnName(w, n);
    if step.Swap? {
      SwapCurrent(w, step.programs, step.previous, step.made, n);
      NewSlotIs(w, step.made, n);
      hide SwapSpec, CanSwap, NewSlot, IsStranded, Shape;
    } else if step.On? && step.obj == k {
      StaysStranded(w.objs[k], step.act);
      hide IsStranded, CanAct, Next, Shape;
    } else if step.Visit? && step.name == n {
      assert VisitSpec(w, n) == w by { hide DependenciesSatisfied, Snap; }
    } else {
      ObjectsStay(w, step, k);
      hide IsStranded, Apply, Enabled, Shape;
    }
  }

  /** No operator command, reconcile pass, timer, probe or further stop gets such a program out of STOPPING. */
  lemma {:induction false} StrandedForever(w: World, steps: seq<Step>, n: string)
    requires Shape(w) && Stranded(w, n) && CanRun(w, steps)
    requires forall step :: step in steps && step.Swap? ==> n in step.programs && n !in step.made
    ensures Stranded(After(w, steps), n)
    decreases |steps|
  {
    if steps != [] {
      hide Shape, Stranded, Enabled, Apply;
      assert steps[0] in steps;
      ShapeStep(w, steps[0]);
      StrandedStep(w, steps[0], n);
      StrandedForever(Apply(w, steps[0]), steps[1..], n);
    }
  }

  lemma ExitSlipsIn(o: Obj, c: nat, r: nat, status: Status, long: bool)
    requires ObjOk(o) && o.proc.state in {Starting, Running} && CanAct(o, StopMarks(c))
    requires CanAct(o, ChildExits(r, status, long))
    ensures CanAct(Next(o, StopMarks(c)), ChildExits(r, status, long))
    ensures CanAct(Next(Next(o, StopMarks(c)), ChildExits(r, status, long)), GivesVerdict(r))
    ensures var judged := Next(Next(Next(o, StopMarks(c)), ChildExits(r, status, long)), GivesVerdict(r));
      judged.proc.state == Stopped && CanAct(judged, StopLands(c)) && IsStranded(Next(judged, StopLands(c)))
  {
    var o1 := Next(o, StopMarks(c));
    var o2 := Next(o1, ChildExits(r, status, long));
    var o3 := Next(o2, GivesVerdict(r));
    assert o.proc.runs[r].Active();
    BetweenStarts(o, c);
    BetweenStep(o1, r, c, false, ChildExits(r, status, long));
    BetweenStep(o2, r, c, false, GivesVerdict(r));
    LandsBetween(o3, r, c, true);
    NoStartAdded(o3, StopLands(c));
    assert o3.proc.state == Stopped;
    var calls := Next(o3, StopLands(c)).calls;
    forall i | 0 <= i < |calls| ensures !LandsStopped(calls[i]) { assert !LandsStopped(o.calls[i]); }
  }

  /** In every world an orderly run can reach, a stop called on a running program can strand it. */
  lemma StopStrands(w: World, n: string, c: nat, r: nat, status: Status, long: bool) returns (v: World)
    requires Inv(w) && n in w.current
    requires var o := w.objs[w.current[n]];
      o.proc.state in {Starting, Running} && CanAct(o, StopMarks(c)) && CanAct(o, ChildExits(r, status, long))
    ensures Leads(w, v) && Stranded(v, n)
  {
    var k := w.current[n];
    var o := w.objs[k];
    ShapeAt(w, n);
    UsedOk(w, n);
    ExitSlipsIn(o, c, r, status, long);
    LeadsNowhere(w);
    hide *;
    v := OneAct(w, w, k, StopMarks(c));
    v := OneAct(w, v, k, ChildExits(r, status, long));
    v := OneAct(w, v, k, GivesVerdict(r));
    v := OneAct(w, v, k, StopLands(c));
  }
}
