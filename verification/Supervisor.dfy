/**
 * internal/server/reconcile.go, server.go and reload.go over internal/process/process.go: the reconciler, the
 * operator, reloads, the monitors and the timers as interleaved steps of one daemon.
 */
module Supervisor {
  import opened Common
  import opened Configuration
  import opened Blocking
  import opened Lifecycle
  import opened Objects

  /** objs are all process objects ever made; those not in current were dropped by a reload. */
  datatype World = World(
    programs: map<string, Program>,
    objs: seq<Obj>,
    current: map<string, nat>,
    desired: map<string, Desired>,
    busy: set<string>,
    history: seq<Event>)

  datatype Step =
    | Visit(name: string)                                    // reconcile looks at one program
    | On(obj: nat, act: Act)
    | WantStart(name: string)
    | WantStop(name: string)
    | Swap(programs: map<string, Program>, previous: map<string, Desired>, made: seq<string>)  // applyPrograms

  function View(p: Proc): ProcessView {
    ProcessView(p.state, p.completed, p.health, p.exitCode)
  }

  /** What a program nobody has given an order for is kept at. */
  function FirstWish(program: Program): Desired {
    if program.autostart then WantRunning else WantStopped
  }

  ghost predicate Shape(w: World) {
    && w.current.Keys == w.desired.Keys == w.programs.Keys
    && w.busy <= w.programs.Keys
    && forall n :: n in w.current ==>
         w.current[n] < |w.objs| && w.objs[w.current[n]].name == n && w.objs[w.current[n]].program == w.programs[n]
  }

  function ViewOf(w: World, n: string): ProcessView {
    if n in w.current && w.current[n] < |w.objs| then View(w.objs[w.current[n]].proc) else View(NEW_PROC)
  }

  function Snap(w: World): (s: Snapshot)
    ensures s.processes.Keys == w.current.Keys
  {
    Snapshot(w.programs, map n | n in w.current :: ViewOf(w, n), w.desired)
  }

  function Kept(w: World, programs: map<string, Program>, n: string): bool {
    n in w.programs && n in programs && programs[n] == w.programs[n]
  }

  /** made lists the added and the changed programs, and previous has a wish for the latter. */
  ghost predicate CanSwap(w: World, programs: map<string, Program>, previous: map<string, Desired>, made: seq<string>) {
    && NoDup(made) && (forall n :: n in made <==> n in programs && !Kept(w, programs, n))
    && (forall n :: n in made && n in w.programs ==> n in previous)
    && w.current.Keys == w.desired.Keys == w.programs.Keys
  }

  ghost predicate Enabled(w: World, step: Step) {
    match step
    case Visit(n) => n in w.current && w.current[n] < |w.objs| && n in w.desired
    case On(k, act) => k < |w.objs| && CanAct(w.objs[k], act)
    case WantStart(n) => n in w.current
    case WantStop(n) => n in w.current
    case Swap(programs, previous, made) => CanSwap(w, programs, previous, made)
  }

  /** runAction: the call is under way and the program marked busy. */
  function ActionSpec(w: World, n: string, stage: Stage): World
    requires n in w.current && w.current[n] < |w.objs|
  {
    var k := w.current[n];
    w.(objs := w.objs[k := WithCall(w.objs[k], stage)], busy := w.busy + {n})
  }

  /** reconcile, for one program. */
  function VisitSpec(w: World, n: string): World
    requires n in w.current && w.current[n] < |w.objs| && n in w.desired
  {
    var state := w.objs[w.current[n]].proc.state;
    if n in w.busy then w
    else if w.desired[n] == WantRunning && state == Stopped then
      if DependenciesSatisfied(Snap(w), n) then ActionSpec(w, n, StartQueued) else w
    else if w.desired[n] == WantStopped && state != Stopped && state != Stopping then ActionSpec(w, n, StopCalled)
    else w
  }

  function OnSpec(w: World, k: nat, act: Act): World
    requires k < |w.objs| && CanAct(w.objs[k], act)
  {
    var o := w.objs[k];
    w.(objs := w.objs[k := Next(o, act)],
       busy := if Clears(o, act) then w.busy - {o.name} else w.busy,
       history := w.history + NewEvents(k, o, act))
  }

  function NewObjs(programs: map<string, Program>, made: seq<string>): (objs: seq<Obj>)
    requires forall n :: n in made ==> n in programs
    ensures |objs| == |made|
    ensures forall i :: 0 <= i < |made| ==> objs[i] == NewObj(made[i], programs[made[i]])
  {
    seq(|made|, i requires 0 <= i < |made| => NewObj(made[i], programs[made[i]]))
  }

  /** Where the object of n is after a reload that made new ones for the programs of made. */
  ghost function NewSlot(w: World, made: seq<string>, n: string): nat
    requires n in made || n in w.current
  {
    if n in made then |w.objs| + FirstIndex(made, n) else w.current[n]
  }

  /** applyPrograms: an unchanged program keeps its object and wish; the others get a new object. */
  ghost function SwapSpec(w: World, programs: map<string, Program>, previous: map<string, Desired>,
                          made: seq<string>): World
    requires CanSwap(w, programs, previous, made)
  {
    World(programs,
          w.objs + NewObjs(programs, made),
          map n | n in programs :: NewSlot(w, made, n),
          map n | n in programs ::
            if n !in w.programs then FirstWish(programs[n]) else if n in made then previous[n] else w.desired[n],
          w.busy * programs.Keys,
          w.history)
  }

  ghost function Apply(w: World, step: Step): World
    requires Enabled(w, step)
  {
    match step
    case Visit(n) => VisitSpec(w, n)
    case On(k, act) => OnSpec(w, k, act)
    case WantStart(n) => w.(desired := w.desired[n := WantRunning])
    case WantStop(n) => w.(desired := w.desired[n := WantStopped])
    case Swap(programs, previous, made) => SwapSpec(w, programs, previous, made)
  }

  /** server.go, New. */
  ghost predicate IsInitial(w: World, programs: map<string, Program>) {
    && Shape(w) && w.programs == programs && w.busy == {} && w.history == []
    && (forall n :: n in programs ==> w.desired[n] == FirstWish(programs[n]))
    && (forall k :: 0 <= k < |w.objs| ==>
          && w.objs[k].proc == NEW_PROC && w.objs[k].calls == []
          && w.objs[k].name in w.current && w.current[w.objs[k].name] == k)
  }

  /** A run of the daemon from w through the given steps. */
  ghost predicate CanRun(w: World, steps: seq<Step>)
    decreases |steps|
  {
    steps == [] || (Enabled(w, steps[0]) && CanRun(Apply(w, steps[0]), steps[1..]))
  }

  ghost function After(w: World, steps: seq<Step>): World
    requires CanRun(w, steps)
    decreases |steps|
  {
    if steps == [] then w else After(Apply(w, steps[0]), steps[1..])
  }

  // ---------------------------------------------------------------- what an orderly run keeps

  /** A reload has taken the object at k out of use. */
  ghost predicate Dropped(w: World, k: nat) {
    k < |w.objs| && !(w.objs[k].name in w.current && w.current[w.objs[k].name] == k)
  }

  /** No program is added back while an action on an object of that name is in flight. */
  ghost predicate NoEarlyReturn(w: World, programs: map<string, Program>) {
    forall k :: 0 <= k < |w.objs| && HoldsMark(w.objs[k]) ==>
                  w.objs[k].name !in programs || w.objs[k].name in w.programs
  }

  /**
   * On the objects in use, no start forks a child between the two halves of a stop that read a stopped state and no
   * stop reads a stopped state between a cancel check and the restart; and no program is added back too early.
   */
  ghost predicate Orderly(w: World, step: Step)
    requires Enabled(w, step)
  {
    match step
    case On(k, act) => Dropped(w, k) || !SlipsIn(w.objs[k], act)
    case Swap(programs, _, _) => NoEarlyReturn(w, programs)
    case _ => true
  }

  ghost predicate OrderlyRun(w: World, steps: seq<Step>)
    decreases |steps|
  {
    steps == [] || (Enabled(w, steps[0]) && Orderly(w, steps[0]) && OrderlyRun(Apply(w, steps[0]), steps[1..]))
  }

  ghost predicate SameMark(w: World, j: nat, k: nat)
    requires j < |w.objs| && k < |w.objs|
  {
    && HoldsMark(w.objs[j]) && HoldsMark(w.objs[k])
    && w.objs[j].name == w.objs[k].name && w.objs[k].name in w.programs
  }

  /** A configured program is busy exactly while an action on an object of its name is in flight; there is one. */
  ghost predicate Marks(w: World) {
    && (forall k :: 0 <= k < |w.objs| && HoldsMark(w.objs[k]) && w.objs[k].name in w.programs ==>
                      w.objs[k].name in w.busy)
    && (forall j, k :: 0 <= j < |w.objs| && 0 <= k < |w.objs| && SameMark(w, j, k) ==> j == k)
    && (forall n :: n in w.busy ==> exists k :: 0 <= k < |w.objs| && HoldsMark(w.objs[k]) && w.objs[k].name == n)
  }

  /** An object in use is sound, unless it is lost; dropped and lost ones keep what no act can take from them. */
  ghost predicate Fine(w: World, lost: set<nat>, k: nat)
    requires k < |w.objs|
  {
    if Dropped(w, k) || k in lost then Spare(w.objs[k]) else ObjOk(w.objs[k])
  }

  ghost predicate InvBut(w: World, lost: set<nat>) {
    Shape(w) && Marks(w) && forall k :: 0 <= k < |w.objs| ==> Fine(w, lost, k)
  }

  ghost predicate Inv(w: World) {
    InvBut(w, {})
  }

  lemma InvInitial(w: World, programs: map<string, Program>)
    requires IsInitial(w, programs)
    ensures Inv(w)
  {
    forall k | 0 <= k < |w.objs| ensures Fine(w, {}, k) {
      NewObjOk(w.objs[k].name, w.objs[k].program);
      OkIsSpare(w.objs[k]);
    }
  }

  /** A visit does nothing, or queues one action on an idle program. */
  lemma VisitCases(w: World, n: string)
    requires Enabled(w, Visit(n))
    ensures VisitSpec(w, n) != w ==>
      && n !in w.busy
      && (VisitSpec(w, n) == ActionSpec(w, n, StopCalled)
          || (VisitSpec(w, n) == ActionSpec(w, n, StartQueued) && w.objs[w.current[n]].proc.state == Stopped
              && w.desired[n] == WantRunning && DependenciesSatisfied(Snap(w), n)))
  {
    hide DependenciesSatisfied, Snap;
  }

  lemma ShapeVisit(w: World, n: string)
    requires Shape(w) && n in w.current
    ensures Shape(VisitSpec(w, n))
  {
    ShapeAt(w, n);
    VisitCases(w, n);
    ShapeRun(w, n, StartQueued);
    ShapeRun(w, n, StopCalled);
    hide Shape, VisitSpec, ActionSpec;
  }

  lemma ShapeRun(w: World, n: string, stage: Stage)
    requires Shape(w) && n in w.current
    ensures Shape(ActionSpec(w, n, stage))
  {
  }

  lemma ShapeOn(w: World, k: nat, act: Act)
    requires Shape(w) && k < |w.objs| && CanAct(w.objs[k], act)
    ensures Shape(OnSpec(w, k, act))
  {
    hide NextProc, CanAct, NextStage, Next, NewEvents;
  }

  lemma SwapKeys(w: World, programs: map<string, Program>, previous: map<string, Desired>, made: seq<string>)
    requires CanSwap(w, programs, previous, made)
    ensures var w' := SwapSpec(w, programs, previous, made);
      && w'.programs == programs && w'.current.Keys == w'.desired.Keys == programs.Keys
      && w'.busy == w.busy * programs.Keys && w'.history == w.history
      && |w'.objs| == |w.objs| + |made|
  {
  }

  lemma NewSlotIs(w: World, made: seq<string>, n: string)
    requires n in made || n in w.current
    ensures var k := NewSlot(w, made, n);
      if n in made then |w.objs| <= k < |w.objs| + |made| && made[k - |w.objs|] == n
      else k == w.current[n]
  {
  }

  lemma OldOrNew(w: World, programs: map<string, Program>, previous: map<string, Desired>, made: seq<string>, n: string)
    requires CanSwap(w, programs, previous, made) && n in programs
    ensures n in made || (n in w.current && n in w.programs && w.programs[n] == programs[n])
  {
    hide NoDup;
  }

  lemma NewSlotHolds(w: World, programs: map<string, Program>, previous: map<string, Desired>, made: seq<string>,
                     n: string)
    requires Shape(w) && CanSwap(w, programs, previous, made) && n in programs
    ensures var w' := SwapSpec(w, programs, previous, made);
      && n in w'.current && w'.current[n] < |w'.objs|
      && w'.objs[w'.current[n]].name == n && w'.objs[w'.current[n]].program == programs[n]
  {
    hide *;
    OldOrNew(w, programs, previous, made, n);
    NewSlotIs(w, made, n);
    SwapCurrent(w, programs, previous, made, n);
    if n !in made { ShapeAt(w, n); }
    SwappedObjs(w, programs, previous, made, NewSlot(w, made, n));
  }

  lemma SwapCurrent(w: World, programs: map<string, Program>, previous: map<string, Desired>, made: seq<string>,
                    n: string)
    requires CanSwap(w, programs, previous, made) && n in programs
    ensures n in made || n in w.current
    ensures var w' := SwapSpec(w, programs, previous, made);
      && n in w'.current && w'.current[n] == NewSlot(w, made, n)
      && |w'.objs| == |w.objs| + |made|
  {
    hide NoDup, NewSlot;
  }

  lemma ShapeAt(w: World, n: string)
    requires Shape(w) && n in w.current
    ensures n in w.programs && n in w.desired && w.current[n] < |w.objs|
    ensures w.objs[w.current[n]].name == n && w.objs[w.current[n]].program == w.programs[n]
  {
  }

  lemma ShapeSwap(w: World, programs: map<string, Program>, previous: map<string, Desired>, made: seq<string>)
    requires Shape(w) && CanSwap(w, programs, previous, made)
    ensures Shape(SwapSpec(w, programs, previous, made))
  {
    hide SwapSpec, CanSwap;
    SwapKeys(w, programs, previous, made);
    forall n | n in programs
      ensures var w' := SwapSpec(w, programs, previous, made);
        && w'.current[n] < |w'.objs| && w'.objs[w'.current[n]].name == n
        && w'.objs[w'.current[n]].program == programs[n]
    {
      NewSlotHolds(w, programs, previous, made, n);
    }
  }

  lemma ShapeStep(w: World, step: Step)
    requires Shape(w) && Enabled(w, step)
    ensures Shape(Apply(w, step))
  {
    hide Shape, CanAct, VisitSpec, OnSpec, SwapSpec;
    assert forall n :: n in w.current ==> n in w.desired by { WishesKnown(w); }
    match step
    case Visit(n) => ShapeVisit(w, n);
    case On(k, act) => ShapeOn(w, k, act);
    case Swap(programs, previous, made) => ShapeSwap(w, programs, previous, made);
    case WantStart(n) => ShapeWish(w, n, WantRunning);
    case WantStop(n) => ShapeWish(w, n, WantStopped);
  }

  lemma ShapeWish(w: World, n: string, want: Desired)
    requires Shape(w) && n in w.current
    ensures Shape(w.(desired := w.desired[n := want]))
  {
  }

  lemma WishesKnown(w: World)
    requires Shape(w)
    ensures w.current.Keys == w.desired.Keys == w.programs.Keys && w.busy <= w.programs.Keys
    ensures forall n :: n in w.current ==> w.current[n] < |w.objs| && w.objs[w.current[n]].name == n
  {
  }

  /** Objects keep their place, name and program; a reload only adds new ones. */
  lemma ObjectsKept(w: World, step: Step, k: nat)
    requires Enabled(w, step) && k < |w.objs|
    ensures k < |Apply(w, step).objs|
    ensures Apply(w, step).objs[k].name == w.objs[k].name && Apply(w, step).objs[k].program == w.objs[k].program
    ensures !(step.On? && step.obj == k) && !(step.Visit? && w.current[step.name] == k) ==>
              Apply(w, step).objs[k] == w.objs[k]
  {
    hide NextProc, CanAct, NextStage, DependenciesSatisfied, Snap, Clears, NewEvents;
  }

  lemma CallAdded(o: Obj, stage: Stage)
    requires ObjOk(o) && !HoldsMark(o)
    requires stage == StopCalled || (stage == StartQueued && o.proc.state == Stopped)
    ensures ObjOk(WithCall(o, stage))
  {
    var calls := WithCall(o, stage).calls;
    if stage == StartQueued {
      forall r | 0 <= r < |o.proc.runs| ensures !o.proc.runs[r].Active() && !o.proc.runs[r].Wakeable() {}
    }
    hide Sound, NothingPending;
    forall c | 0 <= c < |o.calls| ensures !Holds(o.calls[c]) && calls[c] == o.calls[c] {}
  }

  /** A visit adds at most one call, to an object that is not busy. */
  lemma VisitedObj(w: World, n: string)
    requires Shape(w) && Marks(w) && n in w.current && ObjOk(w.objs[w.current[n]])
    ensures ObjOk(VisitSpec(w, n).objs[w.current[n]])
  {
    var o := w.objs[w.current[n]];
    VisitCases(w, n);
    hide ObjOk, VisitSpec, HoldsMark, WithCall;
    if n !in w.busy {
      assert !HoldsMark(o);
      CallAdded(o, StopCalled);
      if o.proc.state == Stopped { CallAdded(o, StartQueued); }
    }
  }

  /** A stop is queued on an object that is not busy. */
  lemma StopSpares(o: Obj)
    requires Spare(o) && !HoldsMark(o)
    ensures Spare(WithCall(o, StopCalled))
  {
    var calls := WithCall(o, StopCalled).calls;
    hide Single, NothingPending;
    forall c | 0 <= c < |o.calls| ensures !Holds(o.calls[c]) && calls[c] == o.calls[c] {}
  }

  /** An object that is lost is not given a start, and no program is added back too early. */
  ghost predicate Steady(w: World, lost: set<nat>, step: Step)
    requires Enabled(w, step)
  {
    match step
    case Visit(n) => w.current[n] in lost ==> VisitSpec(w, n) != ActionSpec(w, n, StartQueued)
    case Swap(programs, _, _) => NoEarlyReturn(w, programs)
    case _ => true
  }

  /** An act that slips in loses its object. */
  ghost function Losing(w: World, lost: set<nat>, step: Step): set<nat>
    requires Enabled(w, step)
  {
    if step.On? && SlipsIn(w.objs[step.obj], step.act) then lost + {step.obj} else lost
  }

  lemma FineAt(w: World, lost: set<nat>, k: nat)
    requires InvBut(w, lost) && k < |w.objs|
    ensures Fine(w, lost, k) && Spare(w.objs[k]) && Shape(w) && Marks(w)
    ensures !Dropped(w, k) && k !in lost ==> ObjOk(w.objs[k])
  {
    hide Spare, ObjOk, Shape, Marks, Dropped;
    if !Dropped(w, k) && k !in lost { OkIsSpare(w.objs[k]); }
  }

  lemma InvIs(w: World)
    ensures Inv(w) <==> InvBut(w, {})
  {
    hide InvBut;
  }

  /** A visit that queues no start on a lost object is steady. */
  lemma QueueIsSteady(w: World, lost: set<nat>, n: string, stage: Stage)
    requires Enabled(w, Visit(n)) && VisitSpec(w, n) == ActionSpec(w, n, stage)
    requires stage == StartQueued ==> w.current[n] !in lost
    ensures Steady(w, lost, Visit(n))
  {
    hide VisitSpec;
    var k := w.current[n];
    if stage != StartQueued {
      var o := w.objs[k];
      assert WithCall(o, stage).calls[|o.calls|].stage != WithCall(o, StartQueued).calls[|o.calls|].stage;
      assert ActionSpec(w, n, stage).objs[k] == WithCall(o, stage);
      assert ActionSpec(w, n, StartQueued).objs[k] == WithCall(o, StartQueued);
    }
  }

  lemma IsFine(w: World, lost: set<nat>, k: nat)
    requires k < |w.objs|
    requires ObjOk(w.objs[k]) || (Spare(w.objs[k]) && (Dropped(w, k) || k in lost))
    ensures Fine(w, lost, k)
  {
    hide Spare, ObjOk, Dropped;
    if ObjOk(w.objs[k]) { OkIsSpare(w.objs[k]); }
  }

  /** The object a program uses is in use. */
  lemma InUse(w: World, n: string)
    requires Shape(w) && n in w.current
    ensures w.current[n] < |w.objs| && !Dropped(w, w.current[n])
  {
  }

  lemma UsedOk(w: World, n: string)
    requires Inv(w) && n in w.current
    ensures w.current[n] < |w.objs| && ObjOk(w.objs[w.current[n]]) && Shape(w) && Marks(w)
  {
    hide Spare, ObjOk, Marks, Fine, Dropped;
    InUse(w, n);
    FineAt(w, {}, w.current[n]);
  }

  lemma FineOn(w: World, lost: set<nat>, k: nat, act: Act)
    requires k < |w.objs| && Fine(w, lost, k) && Enabled(w, On(k, act))
    requires Dropped(w, k) ==> Dropped(Apply(w, On(k, act)), k)
    ensures k < |Apply(w, On(k, act)).objs|
    ensures Fine(Apply(w, On(k, act)), Losing(w, lost, On(k, act)), k)
  {
    hide Spare, ObjOk, Dropped, Next, NewEvents, Clears, SlipsIn, CanAct;
    var o := w.objs[k];
    if ObjOk(o) { OkIsSpare(o); }
    SpareKeeps(o, act);
    if ObjOk(o) && !SlipsIn(o, act) { ActKeeps(o, act); }
    hide Fine;
    IsFine(Apply(w, On(k, act)), Losing(w, lost, On(k, act)), k);
  }

  lemma FineVisit(w: World, lost: set<nat>, n: string)
    requires InvBut(w, lost) && Enabled(w, Visit(n)) && Steady(w, lost, Visit(n))
    ensures w.current[n] < |VisitSpec(w, n).objs| && Fine(VisitSpec(w, n), lost, w.current[n])
  {
    var k := w.current[n];
    VisitCases(w, n);
    assert VisitSpec(w, n).objs[k] != w.objs[k] ==> !HoldsMark(w.objs[k]) && n !in w.busy by {
      assert n !in w.busy ==> !HoldsMark(w.objs[k]);
      hide HoldsMark, ObjOk, Spare, WithCall, DependenciesSatisfied, Snap;
    }
    assert |VisitSpec(w, n).objs| == |w.objs| by { hide WithCall; }
    hide Spare, ObjOk, HoldsMark, Marks, VisitSpec, WithCall, Dropped;
    FineAt(w, lost, k);
    InUse(w, n);
    if k in lost {
      if VisitSpec(w, n) != w && !HoldsMark(w.objs[k]) { StopSpares(w.objs[k]); }
    } else {
      VisitedObj(w, n);
    }
    hide Fine;
    IsFine(VisitSpec(w, n), lost, k);
  }

  lemma NewIsFine(w: World, lost: set<nat>, step: Step, k: nat)
    requires step.Swap? && Enabled(w, step) && |w.objs| <= k < |Apply(w, step).objs|
    ensures Fine(Apply(w, step), lost, k)
  {
    hide ObjOk, CanSwap, SwapSpec, Spare, Dropped;
    SwapKeys(w, step.programs, step.previous, step.made);
    SwappedObjs(w, step.programs, step.previous, step.made, k);
    IsFine(Apply(w, step), lost, k);
  }

  lemma VisitIsApplied(w: World, n: string)
    requires Enabled(w, Visit(n))
    ensures n in w.current && w.current[n] < |w.objs| && n in w.desired && Apply(w, Visit(n)) == VisitSpec(w, n)
  {
    hide VisitSpec;
  }

  /** Objects that were dropped stay so. */
  lemma StaysDropped(w: World, step: Step, k: nat)
    requires Enabled(w, step) && Dropped(w, k)
    ensures Dropped(Apply(w, step), k)
  {
    ObjectsKept(w, step, k);
    if step.Swap? {
      hide SwapSpec, CanSwap, NewSlot;
      var n := w.objs[k].name;
      if n in step.programs {
        OldOrNew(w, step.programs, step.previous, step.made, n);
        NewSlotIs(w, step.made, n);
        SwapCurrent(w, step.programs, step.previous, step.made, n);
      }
      SwapKeys(w, step.programs, step.previous, step.made);
    } else {
      SlotsStay(w, step);
    }
  }

  lemma SlotsStay(w: World, step: Step)
    requires Enabled(w, step) && !step.Swap?
    ensures Apply(w, step).current == w.current && |Apply(w, step).objs| == |w.objs|
  {
    hide NextProc, CanAct, NextStage, DependenciesSatisfied, Snap, Clears, NewEvents;
  }

  lemma FineStep(w: World, lost: set<nat>, step: Step, k: nat)
    requires InvBut(w, lost) && Enabled(w, step) && Steady(w, lost, step) && k < |Apply(w, step).objs|
    ensures Fine(Apply(w, step), Losing(w, lost, step), k)
  {
    hide *;
    if k < |w.objs| {
      FineAt(w, lost, k);
      ObjectsKept(w, step, k);
      if Dropped(w, k) { StaysDropped(w, step, k); }
      LosesOne(w, lost, step);
      if step.On? && k == step.obj {
        FineOn(w, lost, k, step.act);
      } else if step.Visit? && k == w.current[step.name] {
        VisitIsApplied(w, step.name);
        FineVisit(w, lost, step.name);
      } else {
        IsFine(Apply(w, step), Losing(w, lost, step), k);
      }
    } else if step.Swap? {
      NewIsFine(w, Losing(w, lost, step), step, k);
    } else {
      SlotsStay(w, step);
    }
  }

  lemma LosesOne(w: World, lost: set<nat>, step: Step)
    requires Enabled(w, step)
    ensures lost <= Losing(w, lost, step) && (!step.On? ==> Losing(w, lost, step) == lost)
    ensures step.Visit? ==> step.name in w.current
  {
  }

  lemma SwappedObjs(w: World, programs: map<string, Program>, previous: map<string, Desired>, made: seq<string>, k: nat)
    requires CanSwap(w, programs, previous, made) && k < |w.objs| + |made|
    ensures var objs := SwapSpec(w, programs, previous, made).objs;
      && |objs| == |w.objs| + |made|
      && if k < |w.objs| then objs[k] == w.objs[k]
         else made[k - |w.objs|] in programs && ObjOk(objs[k]) && objs[k].calls == []
              && objs[k].name == made[k - |w.objs|] && objs[k].program == programs[made[k - |w.objs|]]
              && objs[k] == NewObj(objs[k].name, objs[k].program)
  {
    hide ObjOk, CanSwap, SwapSpec, NewObjs;
    MadeAreConfigured(w, programs, previous, made);
    SwapAppends(w, programs, previous, made);
    if k >= |w.objs| {
      assert NewObjs(programs, made)[k - |w.objs|] == NewObj(made[k - |w.objs|], programs[made[k - |w.objs|]]);
      NewObjOk(made[k - |w.objs|], programs[made[k - |w.objs|]]);
    }
  }

  lemma SwapAppends(w: World, programs: map<string, Program>, previous: map<string, Desired>, made: seq<string>)
    requires CanSwap(w, programs, previous, made)
    ensures forall n :: n in made ==> n in programs
    ensures SwapSpec(w, programs, previous, made).objs == w.objs + NewObjs(programs, made)
  {
    hide NoDup, NewObjs, NewSlot, Kept;
  }

  lemma MadeAreConfigured(w: World, programs: map<string, Program>, previous: map<string, Desired>, made: seq<string>)
    requires CanSwap(w, programs, previous, made)
    ensures forall n :: n in made ==> n in programs
  {
    hide NoDup, Kept;
  }

  // ---------------------------------------------------------------- the inflight marks

  /** Nothing about the marks changes but for the object at k, if the step is about n. */
  lemma MarksSame(w: World, w': World)
    requires Marks(w) && w'.programs == w.programs && w'.busy == w.busy && |w'.objs| == |w.objs|
    requires forall k :: 0 <= k < |w.objs| ==>
               w'.objs[k].name == w.objs[k].name && (HoldsMark(w'.objs[k]) <==> HoldsMark(w.objs[k]))
    ensures Marks(w')
  {
    hide HoldsMark;
    forall i, j | 0 <= i < |w'.objs| && 0 <= j < |w'.objs| && SameMark(w', i, j) ensures i == j {
      assert SameMark(w, i, j);
    }
    forall n | n in w'.busy ensures exists j :: 0 <= j < |w'.objs| && HoldsMark(w'.objs[j]) && w'.objs[j].name == n {
      var j :| 0 <= j < |w.objs| && HoldsMark(w.objs[j]) && w.objs[j].name == n;
      assert HoldsMark(w'.objs[j]);
    }
  }

  lemma MarksTaken(w: World, w': World, k: nat)
    requires Marks(w) && w'.programs == w.programs && |w'.objs| == |w.objs| && k < |w.objs|
    requires w.objs[k].name in w.programs && w.objs[k].name !in w.busy && w'.busy == w.busy + {w.objs[k].name}
    requires forall j :: 0 <= j < |w.objs| ==>
               w'.objs[j].name == w.objs[j].name && (HoldsMark(w'.objs[j]) <==> HoldsMark(w.objs[j]) || j == k)
    ensures Marks(w')
  {
    hide HoldsMark;
    forall n | n in w'.busy ensures exists j :: 0 <= j < |w'.objs| && HoldsMark(w'.objs[j]) && w'.objs[j].name == n {
      if n != w.objs[k].name {
        var j :| 0 <= j < |w.objs| && HoldsMark(w.objs[j]) && w.objs[j].name == n;
        assert HoldsMark(w'.objs[j]);
      } else {
        assert HoldsMark(w'.objs[k]);
      }
    }
    forall i, j | 0 <= i < |w'.objs| && 0 <= j < |w'.objs| && SameMark(w', i, j) ensures i == j {
      if i != k && j != k { assert SameMark(w, i, j); }
    }
  }

  lemma OneHolder(w: World, j: nat, k: nat)
    requires Marks(w) && j < |w.objs| && k < |w.objs|
    requires HoldsMark(w.objs[j]) && HoldsMark(w.objs[k])
    ensures w.objs[j].name == w.objs[k].name && w.objs[k].name in w.programs ==> j == k
  {
    assert w.objs[j].name == w.objs[k].name && w.objs[k].name in w.programs <==> SameMark(w, j, k);
  }

  lemma MarksCleared(w: World, w': World, k: nat)
    requires Marks(w) && w'.programs == w.programs && |w'.objs| == |w.objs| && k < |w.objs|
    requires HoldsMark(w.objs[k]) && w'.busy == w.busy - {w.objs[k].name} && w.busy <= w.programs.Keys
    requires forall j :: 0 <= j < |w.objs| ==>
               w'.objs[j].name == w.objs[j].name && (HoldsMark(w'.objs[j]) <==> HoldsMark(w.objs[j]) && j != k)
    ensures Marks(w')
  {
    hide HoldsMark;
    forall j | 0 <= j < |w'.objs| && HoldsMark(w'.objs[j]) && w'.objs[j].name in w'.programs
      ensures w'.objs[j].name in w'.busy
    {
      OneHolder(w, j, k);
    }
    forall n | n in w'.busy ensures exists j :: 0 <= j < |w'.objs| && HoldsMark(w'.objs[j]) && w'.objs[j].name == n {
      var j :| 0 <= j < |w.objs| && HoldsMark(w.objs[j]) && w.objs[j].name == n;
      assert HoldsMark(w'.objs[j]);
    }
    forall i, j | 0 <= i < |w'.objs| && 0 <= j < |w'.objs| && SameMark(w', i, j) ensures i == j {
      assert SameMark(w, i, j);
    }
  }

  /** A reload drops the marks of removed programs, and brings none back. */
  lemma MarksSwapped(w: World, w': World)
    requires Marks(w) && w'.busy == w.busy * w'.programs.Keys && |w'.objs| >= |w.objs| && w.busy <= w.programs.Keys
    requires forall k :: 0 <= k < |w.objs| ==> w'.objs[k] == w.objs[k]
    requires forall k :: |w.objs| <= k < |w'.objs| ==> !HoldsMark(w'.objs[k])
    requires forall k :: 0 <= k < |w.objs| && HoldsMark(w.objs[k]) ==>
               w.objs[k].name !in w'.programs || w.objs[k].name in w.programs
    ensures Marks(w')
  {
    hide HoldsMark;
    forall i, j | 0 <= i < |w'.objs| && 0 <= j < |w'.objs| && SameMark(w', i, j) ensures i == j {
      assert SameMark(w, i, j);
    }
    forall n | n in w'.busy ensures exists j :: 0 <= j < |w'.objs| && HoldsMark(w'.objs[j]) && w'.objs[j].name == n {
      var j :| 0 <= j < |w.objs| && HoldsMark(w.objs[j]) && w.objs[j].name == n;
      assert HoldsMark(w'.objs[j]);
    }
  }

  /** An act changes whether its object holds the mark exactly by clearing it. */
  lemma MarkOfNext(o: Obj, act: Act)
    requires Spare(o) && CanAct(o, act)
    ensures HoldsMark(Next(o, act)) <==> HoldsMark(o) && !Clears(o, act)
    ensures Clears(o, act) ==> HoldsMark(o)
  {
    hide Single, NothingPending, NextProc;
    var calls := Next(o, act).calls;
    if act.CalledToStop? {
      assert forall c :: 0 <= c < |o.calls| ==> calls[c] == o.calls[c];
    } else if CallOf(act).Some? {
      var a := act.call;
      assert Holds(calls[a]) <==> o.calls[a].held && !NextStage(o, act).Done?;
      assert o.calls[a].held ==> Holds(o.calls[a]);
      assert forall c :: 0 <= c < |o.calls| && c != a ==> calls[c] == o.calls[c];
      if HoldsMark(o) {
        var h :| 0 <= h < |o.calls| && Holds(o.calls[h]);
        assert h != a ==> Holds(calls[h]);
      }
    }
  }

  lemma CallTakesMark(o: Obj, stage: Stage)
    requires !stage.Done?
    ensures HoldsMark(WithCall(o, stage))
  {
    assert Holds(WithCall(o, stage).calls[|o.calls|]);
  }

  lemma MarksVisit(w: World, n: string)
    requires Shape(w) && Marks(w) && n in w.current
    ensures Marks(VisitSpec(w, n))
  {
    ShapeAt(w, n);
    VisitCases(w, n);
    var k := w.current[n];
    CallTakesMark(w.objs[k], StartQueued);
    CallTakesMark(w.objs[k], StopCalled);
    hide Shape, Marks, HoldsMark, VisitSpec, WithCall, DependenciesSatisfied, Snap;
    if n !in w.busy {
      MarksTaken(w, ActionSpec(w, n, StartQueued), k);
      MarksTaken(w, ActionSpec(w, n, StopCalled), k);
    }
  }

  lemma MarksOn(w: World, k: nat, act: Act)
    requires Shape(w) && Marks(w) && k < |w.objs| && CanAct(w.objs[k], act) && Spare(w.objs[k])
    ensures Marks(OnSpec(w, k, act))
  {
    WishesKnown(w);
    MarkOfNext(w.objs[k], act);
    hide Marks, HoldsMark, Clears, Next, NewEvents, CanAct, Shape, Spare;
    var w' := OnSpec(w, k, act);
    if Clears(w.objs[k], act) { MarksCleared(w, w', k); } else { MarksSame(w, w'); }
  }

  lemma MarksSwap(w: World, programs: map<string, Program>, previous: map<string, Desired>, made: seq<string>)
    requires Shape(w) && Marks(w) && CanSwap(w, programs, previous, made)
    requires NoEarlyReturn(w, programs)
    ensures Marks(SwapSpec(w, programs, previous, made))
  {
    WishesKnown(w);
    SwapKeys(w, programs, previous, made);
    var w' := SwapSpec(w, programs, previous, made);
    forall k | 0 <= k < |w'.objs|
      ensures k < |w.objs| ==> w'.objs[k] == w.objs[k]
      ensures k >= |w.objs| ==> !HoldsMark(w'.objs[k])
    {
      SwappedObjs(w, programs, previous, made, k);
    }
    hide Shape, Marks, HoldsMark, SwapSpec;
    MarksSwapped(w, w');
  }

  lemma MarksStep(w: World, lost: set<nat>, step: Step)
    requires InvBut(w, lost) && Enabled(w, step) && Steady(w, lost, step)
    ensures Marks(Apply(w, step))
  {
    hide Shape, Marks, HoldsMark, CanAct, CanSwap, Fine, VisitSpec, OnSpec, SwapSpec, SlipsIn, Spare, NoEarlyReturn;
    match step
    case Visit(n) => MarksVisit(w, n);
    case On(k, act) => FineAt(w, lost, k); MarksOn(w, k, act);
    case Swap(programs, previous, made) => MarksSwap(w, programs, previous, made);
    case WantStart(n) => MarksSame(w, w.(desired := w.desired[n := WantRunning]));
    case WantStop(n) => MarksSame(w, w.(desired := w.desired[n := WantStopped]));
  }

  /** What a step costs: at most the object whose act slips in. */
  lemma InvButStep(w: World, lost: set<nat>, step: Step)
    requires InvBut(w, lost) && Enabled(w, step) && Steady(w, lost, step)
    ensures InvBut(Apply(w, step), Losing(w, lost, step))
  {
    ShapeStep(w, step);
    MarksStep(w, lost, step);
    var w', more := Apply(w, step), Losing(w, lost, step);
    forall k | 0 <= k < |w'.objs| ensures Fine(w', more, k) { FineStep(w, lost, step, k); }
    hide Shape, Marks, Fine, Apply, Enabled, Steady, Losing;
  }

  /** Losing an object that is not in use is no loss. */
  lemma NoLoss(w: World, k: nat)
    requires InvBut(w, {k}) && Dropped(w, k)
    ensures Inv(w)
  {
    hide Spare, ObjOk, Shape, Marks;
    forall i | 0 <= i < |w.objs| ensures Fine(w, {}, i) { assert Fine(w, {k}, i); }
  }

  lemma OrderlyIsSteady(w: World, step: Step)
    requires Enabled(w, step) && Orderly(w, step)
    ensures Steady(w, {}, step)
    ensures Losing(w, {}, step) == {} || (step.On? && Losing(w, {}, step) == {step.obj} && Dropped(w, step.obj))
  {
    hide Dropped, SlipsIn, NoEarlyReturn, VisitSpec, ActionSpec, CanAct, CanSwap;
  }

  /** Whatever happens in an orderly run, every object in use stays sound and the marks tell what is in flight. */
  lemma InvStep(w: World, step: Step)
    requires Inv(w) && Enabled(w, step) && Orderly(w, step)
    ensures Inv(Apply(w, step))
  {
    OrderlyIsSteady(w, step);
    hide InvBut, Steady, Orderly, Enabled, Apply, Losing;
    InvButStep(w, {}, step);
    if Losing(w, {}, step) != {} {
      StaysDropped(w, step, step.obj);
      NoLoss(Apply(w, step), step.obj);
    }
  }

  lemma WishKeeps(w: World, lost: set<nat>, n: string, want: Desired)
    requires InvBut(w, lost) && n in w.current
    ensures InvBut(w.(desired := w.desired[n := want]), lost)
  {
    hide InvBut;
    if want == WantRunning { InvButStep(w, lost, WantStart(n)); } else { InvButStep(w, lost, WantStop(n)); }
  }

  lemma VisitKeepsInv(w: World, lost: set<nat>, n: string)
    requires InvBut(w, lost) && Enabled(w, Visit(n)) && Steady(w, lost, Visit(n))
    ensures InvBut(VisitSpec(w, n), lost)
  {
    hide InvBut, VisitSpec, Steady;
    InvButStep(w, lost, Visit(n));
  }

  lemma {:induction false} InvAfter(w: World, steps: seq<Step>)
    requires Inv(w) && OrderlyRun(w, steps)
    ensures CanRun(w, steps) && Inv(After(w, steps))
    decreases |steps|
  {
    hide Inv, Enabled, Apply, Orderly;
    if steps != [] {
      InvStep(w, steps[0]);
      InvAfter(Apply(w, steps[0]), steps[1..]);
    }
  }

  /** Run r of object k has a child that was not reaped. */
  predicate IsChild(w: World, k: nat, r: nat) {
    k < |w.objs| && r < |w.objs[k].proc.runs| && w.objs[k].proc.runs[r].phase.Up?
  }

  lemma OneChildOf(w: World, k: nat, i: nat, j: nat)
    requires Inv(w) && IsChild(w, k, i) && IsChild(w, k, j)
    ensures i == j
  {
    FineAt(w, {}, k);
    hide Shape, Marks, InvBut;
  }

  /** In every state of every orderly run, reloads included, an object has at most one unreaped child. */
  lemma AtMostOneChild(programs: map<string, Program>, w: World, steps: seq<Step>, k: nat, i: nat, j: nat)
    requires IsInitial(w, programs) && OrderlyRun(w, steps)
    ensures CanRun(w, steps)
    ensures IsChild(After(w, steps), k, i) && IsChild(After(w, steps), k, j) ==> i == j
  {
    hide *;
    InvInitial(w, programs);
    InvAfter(w, steps);
    if IsChild(After(w, steps), k, i) && IsChild(After(w, steps), k, j) { OneChildOf(After(w, steps), k, i, j); }
  }
}
