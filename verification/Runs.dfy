/** Runs put together step by step, for the modules that exhibit some. */
module Runs {
  import opened Common
  import opened Configuration
  import opened Blocking
  import opened Lifecycle
  import opened Objects
  import opened Supervisor
  import opened Chronicle

  // ---------------------------------------------------------------- runs

  /** v is reached from w by steps of the daemon. */
  ghost predicate Leads(w: World, v: World) {
    exists steps :: CanRun(w, steps) && After(w, steps) == v
  }

  lemma {:induction false} Extend(w: World, steps: seq<Step>, step: Step)
    requires CanRun(w, steps) && Enabled(After(w, steps), step)
    ensures CanRun(w, steps + [step]) && After(w, steps + [step]) == Apply(After(w, steps), step)
    decreases |steps|
  {
    hide Apply, Enabled;
    var longer := steps + [step];
    if steps == [] {
      assert longer[1..] == [];
    } else {
      assert longer[1..] == steps[1..] + [step];
      Extend(Apply(w, steps[0]), steps[1..], step);
    }
  }

  lemma LeadsOn(w: World, v: World, step: Step)
    requires Leads(w, v) && Enabled(v, step)
    ensures Leads(w, Apply(v, step))
  {
    hide Apply, Enabled, CanRun, After;
    var steps :| CanRun(w, steps) && After(w, steps) == v;
    Extend(w, steps, step);
  }

  lemma LeadsNowhere(w: World)
    ensures Leads(w, w)
  {
    hide Apply, Enabled;
    assert CanRun(w, []) && After(w, []) == w;
  }

  lemma {:induction false} RunOn(w: World, a: seq<Step>, b: seq<Step>)
    requires CanRun(w, a) && CanRun(After(w, a), b)
    ensures CanRun(w, a + b) && After(w, a + b) == After(After(w, a), b)
    decreases |a|
  {
    hide Apply, Enabled;
    if a == [] {
      assert a + b == b;
    } else {
      assert (a + b)[1..] == a[1..] + b;
      RunOn(Apply(w, a[0]), a[1..], b);
    }
  }

  lemma LeadsFurther(u: World, v: World, w: World)
    requires Leads(u, v) && Leads(v, w)
    ensures Leads(u, w)
  {
    hide CanRun, After;
    var a :| CanRun(u, a) && After(u, a) == v;
    var b :| CanRun(v, b) && After(v, b) == w;
    RunOn(u, a, b);
  }

  lemma ActIsStep(w: World, k: nat, act: Act)
    requires k < |w.objs| && CanAct(w.objs[k], act)
    ensures Enabled(w, On(k, act))
  {
    hide CanAct;
  }

  lemma SwapIsStep(w: World, programs: map<string, Program>, previous: map<string, Desired>, made: seq<string>)
    requires CanSwap(w, programs, previous, made)
    ensures Enabled(w, Swap(programs, previous, made))
    ensures Apply(w, Swap(programs, previous, made)) == SwapSpec(w, programs, previous, made)
  {
    hide CanSwap, SwapSpec;
  }

  // ---------------------------------------------------------------- acts of one object

  /** v and v' differ in the object at k and perhaps in the mark of its name. */
  ghost predicate OnlyAt(v: World, v': World, k: nat) {
    && v'.programs == v.programs && v'.current == v.current && v'.desired == v.desired
    && |v'.objs| == |v.objs| && (forall i :: 0 <= i < |v.objs| && i != k ==> v'.objs[i] == v.objs[i])
    && k < |v.objs| && v'.objs[k].name == v.objs[k].name && v'.objs[k].program == v.objs[k].program
    && v'.busy <= v.busy && v.busy <= v'.busy + {v.objs[k].name}
  }

  lemma FirstOnlyAt(w: World, k: nat, act: Act)
    requires k < |w.objs| && CanAct(w.objs[k], act)
    ensures OnlyAt(w, OnSpec(w, k, act), k) && Apply(w, On(k, act)) == OnSpec(w, k, act)
    ensures OnSpec(w, k, act).objs[k] == Next(w.objs[k], act)
    ensures OnSpec(w, k, act).busy == if Clears(w.objs[k], act) then w.busy - {w.objs[k].name} else w.busy
  {
    hide CanAct, Next, Clears, NewEvents;
  }

  lemma OneAct(w: World, v: World, k: nat, act: Act) returns (v': World)
    requires Leads(w, v) && k < |v.objs| && CanAct(v.objs[k], act)
    ensures Leads(w, v') && OnlyAt(v, v', k) && v'.objs[k] == Next(v.objs[k], act)
    ensures v'.busy == if Clears(v.objs[k], act) then v.busy - {v.objs[k].name} else v.busy
    ensures v'.history == v.history + NewEvents(k, v.objs[k], act)
  {
    LeadsOn(w, v, On(k, act));
    v' := OnSpec(v, k, act);
    hide Leads, CanAct, Next, Clears, NewEvents;
  }

  lemma OnlyAtOnward(w: World, v: World, v': World, k: nat)
    requires OnlyAt(w, v, k) && OnlyAt(v, v', k)
    ensures OnlyAt(w, v', k) && k < |v'.objs| && k < |v.objs|
  {
  }

  lemma OnlyAtTwice(v: World, v1: World, v2: World, k: nat)
    requires OnlyAt(v, v1, k) && OnlyAt(v1, v2, k) && v1.busy == v.busy
    ensures OnlyAt(v, v2, k)
  {
  }

  lemma IsAt(v: World, v': World, k: nat)
    requires OnlyAt(v, v', k)
    ensures k < |v'.objs|
  {
  }

  lemma SameSlot(v: World, v': World, n: string, k: nat)
    requires OnlyAt(v, v', k) && n in v.current && v.current[n] == k
    ensures n in v'.current && v'.current[n] == k < |v'.objs|
  {
  }

  lemma StaysIdle(w: World, v: World, v': World, k: nat, n: string)
    requires OnlyAt(w, v, k) && OnlyAt(v, v', k) && n !in v.busy
    ensures OnlyAt(w, v', k) && k < |v'.objs| && k < |v.objs| && n !in v'.busy
  {
  }

  lemma NotBusier(v: World, v': World, k: nat, n: string)
    requires OnlyAt(v, v', k) && n !in v.busy
    ensures n !in v'.busy
  {
  }

  /** An act that does not slip in keeps the invariant. */
  lemma OneSafeAct(w: World, v: World, k: nat, act: Act) returns (v': World)
    requires Leads(w, v) && Inv(v) && k < |v.objs| && CanAct(v.objs[k], act) && !SlipsIn(v.objs[k], act)
    ensures Leads(w, v') && Inv(v') && OnlyAt(v, v', k) && v'.objs[k] == Next(v.objs[k], act)
    ensures v'.busy == if Clears(v.objs[k], act) then v.busy - {v.objs[k].name} else v.busy
  {
    FirstOnlyAt(v, k, act);
    v' := OnSpec(v, k, act);
    hide Inv, CanAct, Next, Clears, NewEvents, Leads, OnlyAt;
    LeadsOn(w, v, On(k, act));
    InvStep(v, On(k, act));
  }

  lemma ThreeSafeActs(w: World, v: World, k: nat, a: Act, b: Act, c: Act) returns (v': World)
    requires Leads(w, v) && Inv(v) && k < |v.objs| && CanAct(v.objs[k], a) && !SlipsIn(v.objs[k], a)
    requires CanAct(Next(v.objs[k], a), b) && !SlipsIn(Next(v.objs[k], a), b)
    requires CanAct(Next(Next(v.objs[k], a), b), c) && !SlipsIn(Next(Next(v.objs[k], a), b), c)
    ensures Leads(w, v') && Inv(v') && OnlyAt(v, v', k) && k < |v'.objs|
    ensures v'.objs[k] == Next(Next(Next(v.objs[k], a), b), c)
  {
    hide *;
    var v1 := OneSafeAct(w, v, k, a);
    IsAt(v, v1, k);
    var v2 := OneSafeAct(w, v1, k, b);
    OnlyAtOnward(v, v1, v2, k);
    v' := OneSafeAct(w, v2, k, c);
    OnlyAtOnward(v, v2, v', k);
  }

  lemma QuietActs()
    ensures forall o: Obj, act: Act :: !act.StartRuns? && !act.StopMarks? ==> !SlipsIn(o, act)
  {
  }

  lemma InvShape(w: World)
    requires Inv(w)
    ensures Shape(w)
  {
  }

  // ---------------------------------------------------------------- starts

  /** What the dependencies of n ask for is there; n is not one of them. */
  ghost predicate Supplied(v: World, n: string) {
    DependenciesSatisfied(Snap(v), n) && forall dep :: dep in DependenciesOf(Snap(v), n) ==> dep.name != n
  }

  /** It does not depend on an object that is current for none of them. */
  lemma StillSupplied(v: World, v': World, k: nat, n: string)
    requires OnlyAt(v, v', k) && Supplied(v, n)
    requires forall d :: d in v.current && d != n ==> v.current[d] != k
    ensures Supplied(v', n)
  {
    assert DependenciesOf(Snap(v'), n) == DependenciesOf(Snap(v), n);
    forall dep | dep in DependenciesOf(Snap(v'), n) ensures Satisfied(Snap(v'), dep) {
      assert Satisfied(Snap(v), dep);
      assert ViewOf(v', dep.name) == ViewOf(v, dep.name);
    }
  }

  lemma StaysSupplied(w: World, v: World, v': World, k: nat, n: string)
    requires Shape(w) && OnlyAt(v, v', k) && v.current == w.current && k < |w.objs| && w.objs[k].name == n
    requires Supplied(v, n)
    ensures Supplied(v', n)
  {
    forall d | d in v.current && d != n ensures v.current[d] != k { ShapeAt(w, d); }
    hide Shape, Supplied;
    StillSupplied(v, v', k, n);
  }

  /** n could be started now, were it wanted. */
  ghost predicate Startable(v: World, n: string) {
    && n in v.current && n in v.desired && v.current[n] < |v.objs|
    && v.objs[v.current[n]].proc.state == Stopped && n !in v.busy
    && Supplied(v, n)
  }

  lemma SuppliedStarts(v: World, n: string)
    requires Supplied(v, n) && n in v.current && n in v.desired && v.current[n] < |v.objs|
    requires v.objs[v.current[n]].proc.state == Stopped && n !in v.busy
    ensures Startable(v, n)
  {
    hide Supplied;
  }

  lemma WishSupplied(v: World, n: string, want: Desired)
    requires Supplied(v, n)
    ensures Supplied(v.(desired := v.desired[n := want]), n)
  {
    var v' := v.(desired := v.desired[n := want]);
    assert DependenciesOf(Snap(v'), n) == DependenciesOf(Snap(v), n);
    forall dep | dep in DependenciesOf(Snap(v'), n) ensures Satisfied(Snap(v'), dep) {
      assert Satisfied(Snap(v), dep);
      assert ViewOf(v', dep.name) == ViewOf(v, dep.name);
    }
  }

  /** The operator asks for n and the reconciler queues its start. */
  lemma QueuesStart(w: World, v: World, n: string) returns (v': World)
    requires Leads(w, v) && Startable(v, n)
    ensures Leads(w, v') && v' == ActionSpec(v.(desired := v.desired[n := WantRunning]), n, StartQueued)
  {
    WishSupplied(v, n, WantRunning);
    hide Leads, DependenciesSatisfied, Snap, CanRun, After;
    LeadsOn(w, v, WantStart(n));
    var v1 := v.(desired := v.desired[n := WantRunning]);
    LeadsOn(w, v1, Visit(n));
    v' := ActionSpec(v1, n, StartQueued);
  }

  /** Queueing a start does not change what n waits for. */
  lemma QueuedSupplied(v: World, n: string, k: nat)
    requires n in v.current && n in v.desired && v.current[n] == k < |v.objs| && Supplied(v, n)
    requires forall d :: d in v.current && d != n ==> v.current[d] != k
    ensures Supplied(ActionSpec(v.(desired := v.desired[n := WantRunning]), n, StartQueued), n)
  {
    var v' := ActionSpec(v.(desired := v.desired[n := WantRunning]), n, StartQueued);
    assert DependenciesOf(Snap(v'), n) == DependenciesOf(Snap(v), n);
    forall dep | dep in DependenciesOf(Snap(v'), n) ensures Satisfied(Snap(v'), dep) {
      assert Satisfied(Snap(v), dep);
      assert ViewOf(v', dep.name) == ViewOf(v, dep.name);
    }
  }

  lemma NothingToWaitFor(v: World, n: string)
    requires Shape(v) && n in v.current && v.objs[v.current[n]].program.dependsOn == []
    ensures Supplied(v, n)
  {
    assert DependenciesOf(Snap(v), n) == [];
  }

  lemma NoDependencies(w: World, programs: map<string, Program>, previous: map<string, Desired>, made: seq<string>,
                       n: string)
    requires CanSwap(w, programs, previous, made) && n in programs && programs[n].dependsOn == []
    ensures Supplied(SwapSpec(w, programs, previous, made), n)
  {
    hide NoDup, NewSlot, NewObjs;
    assert DependenciesOf(Snap(SwapSpec(w, programs, previous, made)), n) == [];
  }

  lemma ForksFromStopped(o: Obj)
    requires o.proc.state == Stopped
    ensures var q := WithCall(o, StartQueued);
      && CanAct(q, StartRuns(|o.calls|, true))
      && var p := Next(q, StartRuns(|o.calls|, true)).proc;
         |p.runs| == |o.proc.runs| + 1 && p.runs[|o.proc.runs|].phase.Up?
  {
  }

  /** A startable program gets a child; no other object notices. */
  lemma StartsNow(w: World, v: World, n: string) returns (v': World)
    requires Leads(w, v) && Startable(v, n)
    ensures Leads(w, v') && |v'.objs| == |v.objs| && IsChild(v', v.current[n], |v.objs[v.current[n]].proc.runs|)
    ensures forall i :: 0 <= i < |v.objs| && i != v.current[n] ==> v'.objs[i] == v.objs[i]
    ensures v'.objs[v.current[n]].name == v.objs[v.current[n]].name
  {
    var k := v.current[n];
    ForksFromStopped(v.objs[k]);
    v' := QueuesStart(w, v, n);
    assert v'.objs[k] == WithCall(v.objs[k], StartQueued);
    v' := OneAct(w, v', k, StartRuns(|v.objs[k].calls|, true));
    hide CanAct, Next, Leads;
  }

  lemma FreshIsStartable(w: World, programs: map<string, Program>, n: string)
    requires IsInitial(w, programs) && n in programs && programs[n].dependsOn == []
    ensures Startable(w, n) && w.objs[w.current[n]] == NewObj(n, programs[n])
  {
  }

  lemma QueuedAtFirst(w: World, programs: map<string, Program>, n: string) returns (queued: Obj)
    requires IsInitial(w, programs) && n in programs && programs[n].dependsOn == [] && programs[n].autostart
    ensures Enabled(w, Visit(n)) && Apply(w, Visit(n)) == VisitSpec(w, n) && Inv(VisitSpec(w, n))
    ensures var w1 := VisitSpec(w, n);
      && w1.programs == programs && w1.current.Keys == w1.desired.Keys == programs.Keys
      && n in w1.current && w1.current[n] < |w1.objs| && w1.objs[w1.current[n]] == queued
    ensures queued == WithCall(NewObj(n, programs[n]), StartQueued) && Undead(queued)
  {
    FreshIsStartable(w, programs, n);
    InvInitial(w, programs);
    InvStep(w, Visit(n));
    hide Inv;
    queued := WithCall(NewObj(n, programs[n]), StartQueued);
    assert queued.calls[0].stage.StartQueued?;
    assert VisitSpec(w, n) == ActionSpec(w, n, StartQueued);
  }

  // ---------------------------------------------------------------- children

  /** Two different runs of k are children. */
  ghost predicate TwoChildren(v: World, k: nat) {
    exists i, j :: i != j && IsChild(v, k, i) && IsChild(v, k, j)
  }

  lemma AreTwo(v: World, k: nat, i: nat, j: nat)
    requires i != j && IsChild(v, k, i) && IsChild(v, k, j)
    ensures TwoChildren(v, k)
  {
  }

  /** Two different children belong to objects of n. */
  ghost predicate TwoChildrenOf(v: World, n: string) {
    exists k, i, l, j :: (k != l || i != j) && ChildOf(v, n, k, i) && ChildOf(v, n, l, j)
  }

  predicate ChildOf(v: World, n: string, k: nat, r: nat) {
    IsChild(v, k, r) && v.objs[k].name == n
  }

  /** Run i and the newest run of k are children, the newest was started last, and its exit has not been judged. */
  ghost predicate Doubled(v: World, k: nat, i: nat) {
    && k < |v.objs|
    && var p := v.objs[k].proc; var last := |p.runs| - 1;
    && 0 <= i < last && p.runs[i].phase.Up? && p.runs[last] == Run(Up, true, true)
    && p.state == Starting && !p.stoppedExternally && p.cancel == Some(last) && p.stopRequested == Some(last)
    && LastStart(v.history, k) == Some(Some(last))
    && forall e :: e in v.history && e.ExitJudged? && e.obj == k ==> e.run < last
  }

  ghost predicate IsDoubled(v: World, k: nat) {
    exists i: nat :: Doubled(v, k, i)
  }

  /** A start that forks whatever the state of the object. */
  predicate Forks(o: Obj, act: Act)
    requires CanAct(o, act)
  {
    (act.StartRuns? && act.launched && Accepts(o.proc)) || (act.Restarts? && act.launched)
  }

  lemma ForkLeaves(o: Obj, k: nat, act: Act, i: nat)
    requires CanAct(o, act) && Forks(o, act) && i < |o.proc.runs| && o.proc.runs[i].phase.Up?
    ensures var p, last := Next(o, act).proc, |o.proc.runs|;
      && |p.runs| == last + 1 && p.runs[i].phase.Up? && p.runs[last] == Run(Up, true, true)
      && p.state == Starting && !p.stoppedExternally && p.cancel == Some(last) && p.stopRequested == Some(last)
    ensures |NewEvents(k, o, act)| == 1
    ensures var e := NewEvents(k, o, act)[0]; e.StartAttempt? && e.obj == k && e.launched == Some(|o.proc.runs|)
  {
  }

  lemma LeadsRecorded(w: World, v: World)
    requires Recorded(w) && Leads(w, v)
    ensures Recorded(v)
  {
    hide Recorded, CanRun, After;
    var steps :| CanRun(w, steps) && After(w, steps) == v;
    RecordedAfter(w, steps);
  }

  /** A start that forks while run i is a child makes two. */
  lemma ForkDoubles(w: World, v: World, k: nat, act: Act, i: nat) returns (v': World)
    requires Leads(w, v) && IsChild(v, k, i) && CanAct(v.objs[k], act) && Forks(v.objs[k], act)
    ensures Leads(w, v') && OnlyAt(v, v', k) && v'.objs[k] == Next(v.objs[k], act)
    ensures TwoChildren(v', k) && (Recorded(w) ==> IsDoubled(v', k))
  {
    ForkLeaves(v.objs[k], k, act, i);
    hide CanAct, Next, Clears, NewEvents, Forks, Leads, Recorded;
    v' := OneAct(w, v, k, act);
    AreTwo(v', k, i, |v.objs[k].proc.runs|);
    if Recorded(w) {
      LeadsRecorded(w, v);
      JudgedBefore(v, k);
      assert v'.history[..|v.history|] == v.history;
      assert Doubled(v', k, i);
    }
  }

  lemma JudgedBefore(v: World, k: nat)
    requires Recorded(v) && k < |v.objs|
    ensures forall e :: e in v.history && e.ExitJudged? && e.obj == k ==> e.run < |v.objs[k].proc.runs|
  {
    assert Remembers(v.objs[k].proc, v.history, k);
    hide Shape, InOrder, Attributed, QueuedCame, LastStart, CleanExit;
  }

  lemma BothChildren(v: World, n: string, k: nat, i: nat, l: nat, j: nat)
    requires ChildOf(v, n, k, i) && ChildOf(v, n, l, j) && (k != l || i != j)
    ensures TwoChildrenOf(v, n)
  {
  }

  lemma HasOne(v: World, k: nat) returns (r: nat)
    requires k < |v.objs| && HasChild(v.objs[k])
    ensures IsChild(v, k, r)
  {
    r :| 0 <= r < |v.objs[k].proc.runs| && v.objs[k].proc.runs[r].phase.Up?;
  }

  // ---------------------------------------------------------------- finishing what is in flight

  predicate SamePhases(p: Proc, q: Proc) {
    |p.runs| == |q.runs| && forall r :: 0 <= r < |p.runs| ==> p.runs[r].phase == q.runs[r].phase
  }

  /** The act that takes a call on; a start comes to nothing, a stop gives up waiting. */
  function Finishing(o: Obj, c: nat): Act
    requires c < |o.calls|
  {
    match o.calls[c].stage
    case StartQueued => StartRuns(c, false)
    case StopCalled => StopMarks(c)
    case StopMarked(_, _, _) => StopLands(c)
    case StopWaiting(_, _) => StopReturns(c, true)
    case Done => CalledToStop
  }

  function StagesLeft(stage: Stage): nat {
    match stage
    case StartQueued => 1
    case StopCalled => 3
    case StopMarked(_, _, _) => 2
    case StopWaiting(_, _) => 1
    case Done => 0
  }

  lemma FinishingHelps(o: Obj, c: nat)
    requires c < |o.calls| && Holds(o.calls[c])
    ensures CanAct(o, Finishing(o, c)) && SamePhases(o.proc, Next(o, Finishing(o, c)).proc)
    ensures var next := Next(o, Finishing(o, c));
      && c < |next.calls| == |o.calls| && (forall i :: 0 <= i < |o.calls| && i != c ==> next.calls[i] == o.calls[i])
      && next.calls[c].held && StagesLeft(next.calls[c].stage) < StagesLeft(o.calls[c].stage)
      && (Clears(o, Finishing(o, c)) <==> next.calls[c].stage.Done?)
  {
  }

  /** The call in flight on the object at k ends, its runs stay as they are, and its program is not busy any more. */
  lemma {:induction false} FreeMark(w: World, v: World, k: nat, c: nat) returns (v': World)
    requires Leads(w, v) && k < |v.objs| && c < |v.objs[k].calls| && Holds(v.objs[k].calls[c])
    ensures Leads(w, v') && OnlyAt(v, v', k) && v.objs[k].name !in v'.busy
    ensures SamePhases(v.objs[k].proc, v'.objs[k].proc) && |v'.objs[k].calls| == |v.objs[k].calls|
    ensures forall i :: 0 <= i < |v.objs[k].calls| && i != c ==> v'.objs[k].calls[i] == v.objs[k].calls[i]
    decreases StagesLeft(v.objs[k].calls[c].stage)
  {
    var act := Finishing(v.objs[k], c);
    FinishingHelps(v.objs[k], c);
    hide CanAct, Next, Finishing, Clears, Leads;
    v' := OneAct(w, v, k, act);
    if !v'.objs[k].calls[c].stage.Done? {
      v' := FreeMark(w, v', k, c);
    }
  }

  /** If an action on an object of n is in flight, it can be brought to its end, and children stay. */
  lemma Freed(w: World, v: World, n: string, j: nat) returns (v': World)
    requires Leads(w, v) && j < |v.objs| && v.objs[j].name == n && HoldsMark(v.objs[j])
    ensures Leads(w, v') && OnlyAt(v, v', j) && n !in v'.busy && SamePhases(v.objs[j].proc, v'.objs[j].proc)
  {
    hide Leads;
    var c :| 0 <= c < |v.objs[j].calls| && Holds(v.objs[j].calls[c]);
    v' := FreeMark(w, v, j, c);
  }

  lemma HolderOf(w: World, n: string) returns (j: nat)
    requires Marks(w) && n in w.busy
    ensures j < |w.objs| && HoldsMark(w.objs[j]) && w.objs[j].name == n
  {
    j :| 0 <= j < |w.objs| && HoldsMark(w.objs[j]) && w.objs[j].name == n;
  }

  lemma StillHolds(o: Obj, q: Obj)
    requires HoldsMark(o) && q.calls == o.calls
    ensures HoldsMark(q)
  {
  }

  lemma ChildStays(v: World, v': World, j: nat, k: nat, r: nat)
    requires OnlyAt(v, v', j) && SamePhases(v.objs[j].proc, v'.objs[j].proc) && IsChild(v, k, r)
    ensures IsChild(v', k, r) && v'.objs[k].name == v.objs[k].name
  {
  }

  // ---------------------------------------------------------------- a new object for a program

  /** After a reload that replaced or added n: its object is new, and older objects of its name are nobody's. */
  ghost predicate FreshSlot(w: World, v: World, n: string) {
    && n in v.current && n in v.desired && |w.objs| <= v.current[n] < |v.objs|
    && v.objs[v.current[n]] == NewObj(n, v.objs[v.current[n]].program)
    && (forall j :: 0 <= j < |w.objs| ==> v.objs[j] == w.objs[j])
    && (forall d, j :: d in v.current && 0 <= j < |w.objs| && w.objs[j].name == n ==> v.current[d] != j)
    && (forall d :: d in v.current && d != n ==> v.current[d] != v.current[n])
    && v.busy <= w.busy
  }

  lemma Replaced(w: World, programs: map<string, Program>, previous: map<string, Desired>, made: seq<string>, n: string)
    requires Shape(w) && CanSwap(w, programs, previous, made) && n in made
    ensures FreshSlot(w, SwapSpec(w, programs, previous, made), n)
  {
    var v := SwapSpec(w, programs, previous, made);
    hide *;
    SwapKeys(w, programs, previous, made);
    MadeAreConfigured(w, programs, previous, made);
    SwapCurrent(w, programs, previous, made, n);
    NewSlotIs(w, made, n);
    ShapeSwap(w, programs, previous, made);
    forall j | 0 <= j < |w.objs| ensures v.objs[j] == w.objs[j] {
      SwappedObjs(w, programs, previous, made, j);
    }
    SwappedObjs(w, programs, previous, made, v.current[n]);
    SlotsApart(w, v, n);
  }

  lemma SlotsApart(w: World, v: World, n: string)
    requires Shape(v) && |w.objs| <= |v.objs| && forall j :: 0 <= j < |w.objs| ==> v.objs[j] == w.objs[j]
    requires n in v.current && v.current[n] >= |w.objs|
    ensures forall d, j :: d in v.current && 0 <= j < |w.objs| && w.objs[j].name == n ==> v.current[d] != j
    ensures forall d :: d in v.current && d != n ==> v.current[d] != v.current[n]
    ensures n in v.desired && v.current[n] < |v.objs|
  {
  }

  /** Another definition of the same program, which waits for nothing. */
  function Freely(p: Program): (q: Program)
    ensures q != p && q.dependsOn == [] && q.autorestart == Always && q.maxRestarts == 1
  {
    assert |p.other + "+"| != |p.other|;
    p.(dependsOn := [], autorestart := Always, maxRestarts := 1, other := p.other + "+")
  }

  /** v came from w by reloads that left the objects alone; another one gives n the definition p. */
  lemma Renewed(w: World, v: World, n: string, p: Program) returns (v': World)
    requires Shape(v) && |w.objs| <= |v.objs| && (forall k :: 0 <= k < |w.objs| ==> v.objs[k] == w.objs[k])
    requires v.busy <= w.busy && (n in v.programs ==> v.programs[n] != p) && p.dependsOn == []
    ensures Leads(v, v') && FreshSlot(w, v', n) && Supplied(v', n)
    ensures v'.objs[v'.current[n]].program == p
  {
    var programs, previous, made := v.programs[n := p], map[n := WantRunning], [n];
    CanRenew(v, n, p);
    hide Shape, CanSwap, SwapSpec, FreshSlot, Leads, Supplied;
    LeadsNowhere(v);
    SwapIsStep(v, programs, previous, made);
    LeadsOn(v, v, Swap(programs, previous, made));
    v' := SwapSpec(v, programs, previous, made);
    Replaced(v, programs, previous, made, n);
    ShapeSwap(v, programs, previous, made);
    NoDependencies(v, programs, previous, made, n);
    NewSlotHolds(v, programs, previous, made, n);
    StillFresh(w, v, v', n);
  }

  lemma CanRenew(v: World, n: string, p: Program)
    requires Shape(v) && (n in v.programs ==> v.programs[n] != p)
    ensures CanSwap(v, v.programs[n := p], map[n := WantRunning], [n])
  {
  }

  lemma StillFresh(w: World, v: World, v': World, n: string)
    requires Shape(v') && FreshSlot(v, v', n)
    requires |w.objs| <= |v.objs| && (forall k :: 0 <= k < |w.objs| ==> v.objs[k] == w.objs[k]) && v.busy <= w.busy
    ensures FreshSlot(w, v', n)
  {
    SlotsApart(w, v', n);
    hide Shape;
  }

  /** What a reload leaves of the world for another one. */
  lemma AfterSwap(w: World, programs: map<string, Program>, previous: map<string, Desired>, made: seq<string>)
    requires Shape(w) && CanSwap(w, programs, previous, made)
    ensures var v := SwapSpec(w, programs, previous, made);
      && Shape(v) && v.programs == programs && v.busy <= w.busy && |w.objs| <= |v.objs|
      && forall k :: 0 <= k < |w.objs| ==> v.objs[k] == w.objs[k]
  {
    hide *;
    ShapeSwap(w, programs, previous, made);
    SwapKeys(w, programs, previous, made);
    forall k | 0 <= k < |w.objs| ensures SwapSpec(w, programs, previous, made).objs[k] == w.objs[k] {
      SwappedObjs(w, programs, previous, made, k);
    }
  }
}
