/** What a program's objects, current and dropped, can have in the way of children, over whole runs. */
module Children {
  import opened Common
  import opened Configuration
  import opened Blocking
  import opened Lifecycle
  import opened Objects
  import opened Supervisor

  // ---------------------------------------------------------------- a stop is final

  /** Nobody wants n running, and its object has no child and nothing under way that leads to one. */
  ghost predicate Settled(w: World, n: string) {
    n in w.current && n in w.desired && w.desired[n] == WantStopped && RestsAt(w, w.current[n])
  }

  ghost predicate RestsAt(w: World, k: nat) {
    k < |w.objs| && AtRest(w.objs[k])
  }

  /** No operator asks for n, and a reload neither removes nor replaces it. */
  predicate LeavesAlone(step: Step, n: string) {
    step != WantStart(n) && (step.Swap? ==> n in step.programs && n !in step.made)
  }

  lemma IdleHasNoStart(o: Obj)
    requires ObjOk(o) && !HoldsMark(o)
    ensures !StartPending(o.calls)
  {
    forall c | 0 <= c < |o.calls| ensures !o.calls[c].stage.StartQueued? { assert !Holds(o.calls[c]); }
  }

  lemma StoppedIsSettled(w: World, n: string)
    requires Inv(w) && n in w.current && w.desired[n] == WantStopped
    requires w.objs[w.current[n]].proc.state == Stopped && n !in w.busy
    ensures Settled(w, n)
  {
    var o := w.objs[w.current[n]];
    UsedOk(w, n);
    assert !HoldsMark(o);
    IdleHasNoStart(o);
    StoppedIsSpent(o);
    SpentIsAtRest(o);
  }

  lemma StopCallRests(o: Obj)
    requires AtRest(o)
    ensures AtRest(WithCall(o, StopCalled))
  {
    var calls := WithCall(o, StopCalled).calls;
    hide Sound, NothingPending, Lives;
    forall c | 0 <= c < |calls| ensures !calls[c].stage.StartQueued? && (LandsStopped(calls[c]) ==> c < |o.calls|) {
      if c < |o.calls| { assert !o.calls[c].stage.StartQueued?; }
    }
  }

  /** An object at rest stays so, unless a visit queues a start on it. */
  lemma RestStays(w: World, step: Step, k: nat)
    requires Enabled(w, step) && RestsAt(w, k)
    requires step.Visit? && w.current[step.name] == k ==> w.desired[step.name] == WantStopped
    ensures RestsAt(Apply(w, step), k)
  {
    ObjectsKept(w, step, k);
    if step.Visit? && w.current[step.name] == k {
      VisitCases(w, step.name);
      StopCallRests(w.objs[k]);
      hide AtRest, VisitSpec, CanAct, WithCall;
    } else if step.On? && step.obj == k {
      RestStep(w.objs[k], step.act);
      hide AtRest, CanAct, Next;
    }
  }

  lemma SettledStep(w: World, step: Step, n: string)
    requires Shape(w) && Settled(w, n) && Enabled(w, step) && LeavesAlone(step, n)
    ensures Settled(Apply(w, step), n)
  {
    WishesStay(w, step, n);
    OwnName(w, n);
    hide RestsAt, Apply, Shape;
    RestStays(w, step, w.current[n]);
  }

  lemma OwnName(w: World, n: string)
    requires Shape(w) && n in w.current
    ensures forall m :: m in w.current && w.current[m] == w.current[n] ==> m == n
  {
  }

  lemma WishesStay(w: World, step: Step, n: string)
    requires Shape(w) && n in w.current && Enabled(w, step) && LeavesAlone(step, n)
    ensures n in w.desired
    ensures var w' := Apply(w, step);
      && n in w'.current && w'.current[n] == w.current[n]
      && n in w'.desired && (w'.desired[n] == w.desired[n] || w'.desired[n] == WantStopped)
  {
    hide VisitSpec, CanAct, Next, NewEvents, Clears, DependenciesSatisfied, Snap, NoDup;
    if step.Visit? {
      VisitCases(w, step.name);
    } else if step.Swap? {
      SwapCurrent(w, step.programs, step.previous, step.made, n);
      OldOrNew(w, step.programs, step.previous, step.made, n);
      NewSlotIs(w, step.made, n);
    }
  }

  /**
   * A stop is final: once a program is settled, and so once it is STOPPED, wanted stopped and without an action in
   * flight, no exits, timers, probes, visits, stops and reloads of other programs give it a child, until an
   * operator asks for it or a reload replaces it.
   */
  lemma {:induction false} StopIsFinal(w: World, steps: seq<Step>, n: string)
    requires Shape(w) && Settled(w, n) && CanRun(w, steps)
    requires forall step :: step in steps ==> LeavesAlone(step, n)
    ensures Settled(After(w, steps), n)
    ensures !HasChild(After(w, steps).objs[After(w, steps).current[n]])
    decreases |steps|
  {
    hide Shape, Enabled, Apply, LeavesAlone;
    if steps == [] {
      RestHasNoChild(w.objs[w.current[n]]);
    } else {
      assert steps[0] in steps;
      hide Settled;
      ShapeStep(w, steps[0]);
      SettledStep(w, steps[0], n);
      StopIsFinal(Apply(w, steps[0]), steps[1..], n);
    }
  }

  // ---------------------------------------------------------------- one child per object

  /** A start forks while a run of the object has a child or is past the cancel check. */
  predicate Overlaps(o: Obj, act: Act) {
    && act.StartRuns? && act.launched && Accepts(o.proc)
    && exists r :: 0 <= r < |o.proc.runs| && (o.proc.runs[r].phase.Up? || o.proc.runs[r].phase.Restarting?)
  }

  ghost predicate ApartRun(w: World, steps: seq<Step>)
    decreases |steps|
  {
    || steps == []
    || (Enabled(w, steps[0]) && (steps[0].On? ==> !Overlaps(w.objs[steps[0].obj], steps[0].act))
        && ApartRun(Apply(w, steps[0]), steps[1..]))
  }

  /** Only the newest run can be live, has a child, or is past the cancel check. */
  ghost predicate OneByOne(p: Proc) {
    && (forall r :: 0 <= r < |p.runs| && p.runs[r].live ==> p.cancel == Some(r))
    && (p.cancel.Some? ==> p.cancel.value == |p.runs| - 1)
    && (forall r :: 0 <= r < |p.runs| && (p.runs[r].phase.Up? || p.runs[r].phase.Restarting?) ==> r == |p.runs| - 1)
  }

  lemma OneByOneKeeps(o: Obj, act: Act)
    requires OneByOne(o.proc) && CanAct(o, act) && !Overlaps(o, act)
    ensures OneByOne(NextProc(o, act))
  {
    var p := o.proc;
    match act
    case StartRuns(_, launched) => if Accepts(p) { StartsAlone(p, o.program, launched); }
    case GivesVerdict(r) => JudgedAlone(p, o.program, r);
    case Restarts(r, launched) => StartsAlone(SetPhase(p, r, Over).(state := Backoff), o.program, launched);
    case _ => hide StartSpec, JudgeSpec, RestartSpec;
  }

  lemma StartsAlone(p: Proc, program: Program, launched: bool)
    requires OneByOne(p) && Accepts(p)
    requires launched ==> forall r :: 0 <= r < |p.runs| ==> !p.runs[r].phase.Up? && !p.runs[r].phase.Restarting?
    ensures OneByOne(StartSpec(p, program, launched))
  {
  }

  lemma JudgedAlone(p: Proc, program: Program, r: nat)
    requires OneByOne(p) && r < |p.runs| && p.runs[r].phase.Reaped?
    ensures OneByOne(JudgeSpec(p, program, r))
  {
    var q := JudgeSpec(p, program, r);
    assert forall i :: 0 <= i < |p.runs| ==> q.runs[i].live == p.runs[i].live;
    assert forall i :: 0 <= i < |p.runs| && i != r ==> q.runs[i] == p.runs[i];
  }

  ghost predicate AllOneByOne(w: World) {
    forall k :: 0 <= k < |w.objs| ==> OneByOne(w.objs[k].proc)
  }

  lemma OneByOneStep(w: World, step: Step, k: nat)
    requires AllOneByOne(w) && Enabled(w, step) && (step.On? ==> !Overlaps(w.objs[step.obj], step.act))
    requires k < |Apply(w, step).objs|
    ensures OneByOne(Apply(w, step).objs[k].proc)
  {
    if k >= |w.objs| {
      hide AllOneByOne, CanAct, Next, Clears, NewEvents, CanSwap, SwapSpec, VisitSpec;
      if !step.Swap? { SlotsStay(w, step); }
      SwapKeys(w, step.programs, step.previous, step.made);
      SwappedObjs(w, step.programs, step.previous, step.made, k);
    } else {
      ObjectsKept(w, step, k);
      assert OneByOne(w.objs[k].proc);
      if step.On? && step.obj == k { OneByOneKeeps(w.objs[k], step.act); }
      if step.Visit? { VisitCases(w, step.name); }
      hide OneByOne, AllOneByOne, CanAct, NextProc, Clears, NewEvents, CanSwap, SwapSpec, VisitSpec, Overlaps;
    }
  }

  lemma {:induction false} OneByOneAfter(w: World, steps: seq<Step>)
    requires AllOneByOne(w) && ApartRun(w, steps)
    ensures CanRun(w, steps) && AllOneByOne(After(w, steps))
    decreases |steps|
  {
    if steps != [] {
      hide Enabled, Apply, OneByOne, Overlaps;
      var w1 := Apply(w, steps[0]);
      forall k | 0 <= k < |w1.objs| ensures OneByOne(w1.objs[k].proc) { OneByOneStep(w, steps[0], k); }
      OneByOneAfter(w1, steps[1..]);
    }
  }

  /**
   * In every run whatsoever an object has at most one unreaped child, as long as no start of the reconciler forks
   * while the object has a child or a restart past its cancel check.
   */
  lemma OneChildUnlessOverlap(programs: map<string, Program>, w: World, steps: seq<Step>, k: nat, i: nat, j: nat)
    requires IsInitial(w, programs) && ApartRun(w, steps)
    ensures CanRun(w, steps)
    ensures IsChild(After(w, steps), k, i) && IsChild(After(w, steps), k, j) ==> i == j
  {
    assert AllOneByOne(w) by { hide Shape; }
    hide CanRun, After, ApartRun, IsInitial;
    OneByOneAfter(w, steps);
    if k < |After(w, steps).objs| { assert OneByOne(After(w, steps).objs[k].proc); }
  }

  /** The starts of an orderly run never do. */
  lemma OrderlyIsApart(w: World, k: nat, act: Act)
    requires Inv(w) && k < |w.objs| && CanAct(w.objs[k], act)
    ensures !Overlaps(w.objs[k], act)
  {
    FineAt(w, {}, k);
    hide InvBut, Fine, Single;
  }

  // ---------------------------------------------------------------- one child per program

  /** Dropped objects are at rest. */
  ghost predicate DroppedRest(w: World) {
    forall k: nat :: Dropped(w, k) ==> RestsAt(w, k)
  }

  /** A reload drops only objects without a child and without anything that leads to one. */
  ghost predicate Clean(w: World, step: Step) {
    step.Swap? ==>
      forall n :: n in w.programs && n in w.current && !Kept(w, step.programs, n) && w.current[n] < |w.objs| ==>
        !Undead(w.objs[w.current[n]])
  }

  ghost predicate CleanRun(w: World, steps: seq<Step>)
    decreases |steps|
  {
    || steps == []
    || (Enabled(w, steps[0]) && Orderly(w, steps[0]) && Clean(w, steps[0]) && CleanRun(Apply(w, steps[0]), steps[1..]))
  }

  /** Dropping programs that are STOPPED with no start queued is clean. */
  lemma StoppedDropsAreClean(w: World, step: Step)
    requires Inv(w) && step.Swap?
    requires forall n :: n in w.programs && !Kept(w, step.programs, n) ==>
               var o := w.objs[w.current[n]]; o.proc.state == Stopped && !StartPending(o.calls)
    ensures Clean(w, step)
  {
    forall n | n in w.programs && !Kept(w, step.programs, n) ensures !Undead(w.objs[w.current[n]]) {
      UsedOk(w, n);
      StoppedIsSpent(w.objs[w.current[n]]);
    }
  }

  /** An object is dropped only by a reload, and then the reload was clean. */
  lemma DroppedBefore(w: World, step: Step, k: nat)
    requires Shape(w) && Enabled(w, step) && Dropped(Apply(w, step), k)
    ensures k < |w.objs|
    ensures Dropped(w, k) || (step.Swap? && w.objs[k].name in w.programs && w.current[w.objs[k].name] == k
                              && !Kept(w, step.programs, w.objs[k].name))
  {
    if step.Swap? {
      hide SwapSpec, CanSwap, Shape, Dropped, Kept;
      SwapDrops(w, step.programs, step.previous, step.made);
      if !Dropped(w, k) { NotDropped(w, k); }
    } else {
      ObjectsStay(w, step, k);
      hide Apply, Enabled, Shape;
    }
  }

  lemma NotDropped(w: World, k: nat)
    requires Shape(w) && k < |w.objs| && !Dropped(w, k)
    ensures w.objs[k].name in w.programs && w.objs[k].name in w.current && w.current[w.objs[k].name] == k
  {
  }

  lemma SwapDrops(w: World, programs: map<string, Program>, previous: map<string, Desired>, made: seq<string>)
    requires Shape(w) && CanSwap(w, programs, previous, made)
    ensures var w' := SwapSpec(w, programs, previous, made);
      && (forall k: nat :: Dropped(w', k) ==> k < |w.objs|)
      && (forall k: nat :: Dropped(w', k) && k < |w.objs| && !Dropped(w, k) ==> !Kept(w, programs, w.objs[k].name))
  {
    var w' := SwapSpec(w, programs, previous, made);
    SwapKeys(w, programs, previous, made);
    forall k | |w.objs| <= k < |w'.objs| ensures !Dropped(w', k) {
      SwappedObjs(w, programs, previous, made, k);
      NewIsCurrent(w, programs, previous, made, k - |w.objs|);
    }
    forall k | 0 <= k < |w.objs| && !Dropped(w, k) && Kept(w, programs, w.objs[k].name) ensures !Dropped(w', k) {
      SwappedObjs(w, programs, previous, made, k);
      KeptIsOld(w, programs, previous, made, w.objs[k].name);
    }
  }

  lemma ObjectsStay(w: World, step: Step, k: nat)
    requires Enabled(w, step) && !step.Swap? && k < |Apply(w, step).objs|
    ensures k < |w.objs| && Apply(w, step).current == w.current && Apply(w, step).objs[k].name == w.objs[k].name
  {
    hide CanAct, DependenciesSatisfied, Snap, NewEvents, Clears, NextProc, NextStage;
  }

  lemma KeptIsOld(w: World, programs: map<string, Program>, previous: map<string, Desired>, made: seq<string>,
                  n: string)
    requires Shape(w) && CanSwap(w, programs, previous, made) && Kept(w, programs, n)
    ensures n in SwapSpec(w, programs, previous, made).current
    ensures SwapSpec(w, programs, previous, made).current[n] == w.current[n]
  {
    SwapCurrent(w, programs, previous, made, n);
    NewSlotIs(w, made, n);
    assert n !in made by { hide NoDup; }
    hide SwapSpec, CanSwap, NewSlot;
  }

  lemma NewIsCurrent(w: World, programs: map<string, Program>, previous: map<string, Desired>, made: seq<string>,
                     i: nat)
    requires CanSwap(w, programs, previous, made) && i < |made|
    ensures made[i] in SwapSpec(w, programs, previous, made).current
    ensures SwapSpec(w, programs, previous, made).current[made[i]] == |w.objs| + i
  {
    MadeOnce(w, programs, previous, made);
    hide *;
    MadeAreConfigured(w, programs, previous, made);
    assert made[i] in made;
    SwapCurrent(w, programs, previous, made, made[i]);
    NewSlotIs(w, made, made[i]);
    OnlyPlace(made, i, NewSlot(w, made, made[i]) - |w.objs|);
  }

  lemma MadeOnce(w: World, programs: map<string, Program>, previous: map<string, Desired>, made: seq<string>)
    requires CanSwap(w, programs, previous, made)
    ensures NoDup(made)
  {
  }

  lemma OnlyPlace(s: seq<string>, i: nat, j: nat)
    requires NoDup(s) && i < |s| && j < |s| && s[i] == s[j]
    ensures i == j
  {
  }

  lemma DroppedRestStep(w: World, step: Step)
    requires Inv(w) && DroppedRest(w) && Enabled(w, step) && Orderly(w, step) && Clean(w, step)
    ensures DroppedRest(Apply(w, step))
  {
    forall k: nat | Dropped(Apply(w, step), k) ensures RestsAt(Apply(w, step), k) {
      DroppedBefore(w, step, k);
      if Dropped(w, k) {
        VisitsCurrent(w, step, k);
        hide Inv, Clean, Orderly, RestsAt;
        RestStays(w, step, k);
      } else {
        UsedOk(w, w.objs[k].name);
        hide Inv, Orderly, ObjOk, Undead;
        SpentIsAtRest(w.objs[k]);
        RestStays(w, step, k);
      }
    }
  }

  lemma VisitsCurrent(w: World, step: Step, k: nat)
    requires Shape(w) && Enabled(w, step) && Dropped(w, k)
    ensures step.Visit? ==> w.current[step.name] != k
  {
  }

  lemma {:induction false} CleanAfter(w: World, steps: seq<Step>)
    requires Inv(w) && DroppedRest(w) && CleanRun(w, steps)
    ensures CanRun(w, steps) && Inv(After(w, steps)) && DroppedRest(After(w, steps))
    decreases |steps|
  {
    hide Inv, DroppedRest, Enabled, Apply, Orderly, Clean;
    if steps != [] {
      InvStep(w, steps[0]);
      DroppedRestStep(w, steps[0]);
      CleanAfter(Apply(w, steps[0]), steps[1..]);
    }
  }

  lemma ChildIsCurrent(w: World, k: nat, r: nat)
    requires DroppedRest(w) && IsChild(w, k, r)
    ensures w.objs[k].name in w.current && w.current[w.objs[k].name] == k
  {
    if Dropped(w, k) {
      assert RestsAt(w, k);
      RestHasNoChild(w.objs[k]);
    }
  }

  /**
   * A program has at most one unreaped child, objects dropped by reloads included, in every state of every orderly
   * run whose reloads are clean.
   */
  lemma OneChildPerProgram(programs: map<string, Program>, w: World, steps: seq<Step>, k: nat, i: nat, l: nat, j: nat)
    requires IsInitial(w, programs) && CleanRun(w, steps)
    ensures CanRun(w, steps)
    ensures var w' := After(w, steps);
      IsChild(w', k, i) && IsChild(w', l, j) && w'.objs[k].name == w'.objs[l].name ==> k == l && i == j
  {
    InvInitial(w, programs);
    assert DroppedRest(w) by { hide Inv, AtRest; }
    hide Inv, DroppedRest, CleanRun, CanRun, After, IsInitial;
    CleanAfter(w, steps);
    var w' := After(w, steps);
    if IsChild(w', k, i) && IsChild(w', l, j) && w'.objs[k].name == w'.objs[l].name {
      ChildIsCurrent(w', k, i);
      ChildIsCurrent(w', l, j);
      OneChildOf(w', k, i, j);
    }
  }
}
