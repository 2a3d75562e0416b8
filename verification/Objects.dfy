/**
 * internal/process/process.go: a process object together with the calls of Start and Stop under way on it. A
 * call belongs to its object for good, also when a reload has put another object under the program's name.
 */
module Objects {
  import opened Common
  import opened Configuration
  import opened Blocking
  import opened Lifecycle

  /** How far a call has got. */
  datatype Stage =
    | StartQueued                                                            // runAction(name, proc.Start)
    | StopCalled
    | StopMarked(seen: State, captured: Option<nat>, awaited: Option<nat>)   // the mark is set, the state not yet
    | StopWaiting(captured: Option<nat>, awaited: Option<nat>)               // for the monitor of a run
    | Done

  /** held: the call ends by clearing the inflight mark of its program. */
  datatype Call = Call(stage: Stage, held: bool)

  datatype Obj = Obj(name: string, program: Program, proc: Proc, calls: seq<Call>)

  /** What happened, in order. */
  datatype Event =
    | StartAttempt(obj: nat, name: string, dependsOn: seq<Dependency>, from: State, launched: Option<nat>,
                   automatic: bool)
    | ExitJudged(obj: nat, name: string, run: nat, code: int, requested: bool, long: bool)

  /** What can happen to an object by itself. */
  datatype Act =
    | CalledToStop                                       // by an operator's start, or at shutdown
    | StartRuns(call: nat, launched: bool)
    | StopMarks(call: nat)
    | StopLands(call: nat)
    | StopReturns(call: nat, gaveUp: bool)
    | ChildExits(run: nat, status: Status, long: bool)
    | GivesVerdict(run: nat)                             // the monitor's verdict
    | StartSecs(run: nat)
    | Wakes(run: nat)                                    // the backoff ends
    | Restarts(run: nat, launched: bool)
    | Abandons(run: nat)                                 // the backoff is cancelled
    | Probed(health: Health)

  function NewObj(name: string, program: Program): Obj {
    Obj(name, program, NEW_PROC, [])
  }

  /** runAction has been told to take o through a start or a stop. */
  function WithCall(o: Obj, stage: Stage): Obj {
    o.(calls := o.calls + [Call(stage, true)])
  }

  function CallOf(act: Act): Option<nat> {
    if act.StartRuns? || act.StopMarks? || act.StopLands? || act.StopReturns? then Some(act.call) else None
  }

  /** The monitor of the run Stop waits for has finished, or there is none. */
  predicate MonitorDone(p: Proc, awaited: Option<nat>) {
    awaited.Some? && awaited.value < |p.runs| ==> p.runs[awaited.value].phase.Over?
  }

  predicate CanAct(o: Obj, act: Act) {
    var p := o.proc;
    match act
    case CalledToStop => true
    case StartRuns(c, _) => c < |o.calls| && o.calls[c].stage.StartQueued?
    case StopMarks(c) => c < |o.calls| && o.calls[c].stage.StopCalled?
    case StopLands(c) => c < |o.calls| && o.calls[c].stage.StopMarked?
    case StopReturns(c, gaveUp) =>
      c < |o.calls| && o.calls[c].stage.StopWaiting? && (gaveUp || MonitorDone(p, o.calls[c].stage.awaited))
    case ChildExits(r, _, _) => r < |p.runs| && p.runs[r].phase.Up?
    case GivesVerdict(r) => r < |p.runs| && p.runs[r].phase.Reaped?
    case StartSecs(r) => r == |p.runs| - 1 && p.runs[r].Active() && p.runs[r].live
    case Wakes(r) => r < |p.runs| && p.runs[r].phase.Waiting? && p.runs[r].Wakeable()
    case Restarts(r, _) => r < |p.runs| && p.runs[r].phase.Restarting?
    case Abandons(r) => r < |p.runs| && p.runs[r].phase.Waiting? && !p.runs[r].Wakeable()
    case Probed(h) => p.health != NoCheck && h != NoCheck
  }

  function LastRun(p: Proc): Option<nat> {
    if |p.runs| > 0 then Some(|p.runs| - 1) else None
  }

  function NextProc(o: Obj, act: Act): Proc
    requires CanAct(o, act)
  {
    var p := o.proc;
    match act
    case CalledToStop => p
    case StartRuns(_, launched) => StartSpec(p, o.program, launched)
    case StopMarks(_) => StopMarkSpec(p)
    case StopLands(c) => StopLandSpec(p, o.calls[c].stage.seen, o.calls[c].stage.captured)
    case StopReturns(c, _) => StopReturnSpec(p, o.calls[c].stage.captured)
    case ChildExits(r, status, long) => ReapedSpec(p, r, status, long)
    case GivesVerdict(r) => JudgeSpec(p, o.program, r)
    case StartSecs(r) => StartSecsSpec(p, r)
    case Wakes(r) => WakeSpec(p, r)
    case Restarts(r, launched) => RestartSpec(p, o.program, r, launched)
    case Abandons(r) => SetPhase(p, r, Over)
    case Probed(h) => p.(health := h)
  }

  function NextStage(o: Obj, act: Act): Stage
    requires CanAct(o, act) && CallOf(act).Some?
  {
    match act
    case StopMarks(_) => StopMarked(o.proc.state, o.proc.cancel, LastRun(o.proc))
    case StopLands(c) =>
      var stage := o.calls[c].stage;
      if ReadsStopped(stage.seen) then Done else StopWaiting(stage.captured, stage.awaited)
    case _ => Done
  }

  function Next(o: Obj, act: Act): (next: Obj)
    requires CanAct(o, act)
    ensures next.name == o.name && next.program == o.program && |next.calls| >= |o.calls|
    ensures next.proc == NextProc(o, act)
  {
    if act.CalledToStop? then o.(calls := o.calls + [Call(StopCalled, false)])
    else if CallOf(act).Some? then
      o.(proc := NextProc(o, act), calls := o.calls[act.call := o.calls[act.call].(stage := NextStage(o, act))])
    else o.(proc := NextProc(o, act))
  }

  /** The act ends a call that clears the inflight mark. */
  predicate Clears(o: Obj, act: Act)
    requires CanAct(o, act)
  {
    CallOf(act).Some? && o.calls[act.call].held && NextStage(o, act).Done?
  }

  function Launched(before: Proc, after: Proc): Option<nat> {
    if |after.runs| > |before.runs| then Some(|before.runs|) else None
  }

  /** The event an act on object k leaves in the history, if any. */
  function NewEvents(k: nat, o: Obj, act: Act): (es: seq<Event>)
    requires CanAct(o, act)
    ensures |es| <= 1 && forall e :: e in es ==> e.obj == k && e.name == o.name
  {
    var p, q := o.proc, NextProc(o, act);
    match act
    case StartRuns(_, _) =>
      if Accepts(p) then [StartAttempt(k, o.name, o.program.dependsOn, p.state, Launched(p, q), false)] else []
    case GivesVerdict(r) =>
      [ExitJudged(k, o.name, r, p.runs[r].phase.code, !Unrequested(p), p.runs[r].phase.long)]
    case Restarts(_, _) => [StartAttempt(k, o.name, o.program.dependsOn, p.state, Launched(p, q), true)]
    case _ => []
  }

  // ---------------------------------------------------------------- what every act keeps

  /** A stop that has read a stopped state and will set STOPPED. */
  predicate LandsStopped(call: Call) {
    call.stage.StopMarked? && ReadsStopped(call.stage.seen)
  }

  /** A call that will clear the inflight mark. */
  predicate Holds(call: Call) {
    call.held && !call.stage.Done?
  }

  ghost predicate HoldsMark(o: Obj) {
    exists c :: 0 <= c < |o.calls| && Holds(o.calls[c])
  }

  ghost predicate StartPending(calls: seq<Call>) {
    exists c :: 0 <= c < |calls| && calls[c].stage.StartQueued?
  }

  ghost predicate LandingsOk(p: Proc, calls: seq<Call>) {
    forall c :: 0 <= c < |calls| && LandsStopped(calls[c]) ==> NothingPending(p)
  }

  ghost predicate CallsOk(p: Proc, calls: seq<Call>) {
    && LandingsOk(p, calls)
    && (forall c :: 0 <= c < |calls| && calls[c].stage.StartQueued? ==>
                      calls[c].held && NothingPending(p) && p.state in {Stopped, Stopping})
    && (forall c, d :: 0 <= c < |calls| && 0 <= d < |calls| && Holds(calls[c]) && Holds(calls[d]) ==> c == d)
  }

  ghost predicate ObjOk(o: Obj) {
    Sound(o.proc, o.program) && CallsOk(o.proc, o.calls)
  }

  /**
   * A start that forks a child between the two halves of a stop that read a stopped state, or a stop that reads a
   * stopped state between the cancel check and the restart.
   */
  predicate SlipsIn(o: Obj, act: Act) {
    || (act.StartRuns? && act.launched && exists c :: 0 <= c < |o.calls| && LandsStopped(o.calls[c]))
    || (act.StopMarks? && InGapStopped(o.proc))
  }

  lemma NextSound(o: Obj, act: Act)
    requires Sound(o.proc, o.program) && LandingsOk(o.proc, o.calls) && CanAct(o, act)
    requires act.StartRuns? ==> NothingPending(o.proc)
    requires act.StopMarks? ==> !InGapStopped(o.proc)
    ensures Sound(NextProc(o, act), o.program)
  {
    hide Sound, NothingPending, InGapStopped, StartSpec, JudgeSpec, WakeSpec, RestartSpec, StopMarkSpec, StopLandSpec,
      StopReturnSpec, ReapedSpec, StartSecsSpec, SetPhase;
    var p, program := o.proc, o.program;
    match act
    case CalledToStop =>
    case StartRuns(_, launched) => StartSound(p, program, launched);
    case StopMarks(_) => StopMarkSound(p, program);
    case StopLands(c) =>
      assert LandsStopped(o.calls[c]) <==> ReadsStopped(o.calls[c].stage.seen);
      StopLandSound(p, program, o.calls[c].stage.seen, o.calls[c].stage.captured);
    case StopReturns(c, _) => StopReturnSound(p, program, o.calls[c].stage.captured);
    case ChildExits(r, status, long) => ReapedSound(p, program, r, status, long);
    case GivesVerdict(r) => JudgeSound(p, program, r);
    case StartSecs(r) => StartSecsSound(p, program, r);
    case Wakes(r) => WakeSound(p, program, r);
    case Restarts(r, launched) => RestartSound(p, program, r, launched);
    case Abandons(r) => AbandonSound(p, program, r);
    case Probed(h) => ProbedSound(p, program, h);
  }

  /** Only a start brings something to a process that has nothing pending, and nothing else takes it out of rest. */
  lemma NextQuiet(o: Obj, act: Act)
    requires CanAct(o, act) && NothingPending(o.proc)
    requires !(act.StartRuns? && act.launched)
    ensures NothingPending(NextProc(o, act))
    ensures !act.StartRuns? && o.proc.state in {Stopped, Stopping} ==> NextProc(o, act).state in {Stopped, Stopping}
  {
  }

  lemma NextCalls(o: Obj, act: Act)
    requires ObjOk(o) && CanAct(o, act) && !SlipsIn(o, act)
    ensures CallsOk(NextProc(o, act), Next(o, act).calls)
  {
    var calls := Next(o, act).calls;
    if NothingPending(o.proc) && !(act.StartRuns? && act.launched) {
      NextQuiet(o, act);
    }
    if act.StopMarks? { StopMarkSound(o.proc, o.program); }
    hide Sound, NothingPending, NextProc;
    forall c, d | 0 <= c < |calls| && 0 <= d < |calls| && Holds(calls[c]) && Holds(calls[d]) ensures c == d {
      assert Holds(o.calls[c]) && Holds(o.calls[d]);
    }
  }

  lemma ActKeeps(o: Obj, act: Act)
    requires ObjOk(o) && CanAct(o, act) && !SlipsIn(o, act)
    ensures ObjOk(Next(o, act))
  {
    assert act.StartRuns? ==> NothingPending(o.proc);
    NextSound(o, act);
    NextCalls(o, act);
    hide Sound, CallsOk, NextProc, CanAct, NextStage, SlipsIn;
  }

  lemma NewObjOk(name: string, program: Program)
    ensures ObjOk(NewObj(name, program))
  {
  }

  // ---------------------------------------------------------------- what every act keeps, come what may

  /** At most one run of the process, the newest, has a child or can lead to one. */
  ghost predicate Single(p: Proc, program: Program) {
    && (forall r :: 0 <= r < |p.runs| && (p.runs[r].Active() || p.runs[r].Wakeable()) ==> r == |p.runs| - 1)
    && (forall r :: 0 <= r < |p.runs| && p.runs[r].Wakeable() ==> p.state in {Exited, Stopping, Stopped})
    && p.restartCount <= program.maxRestarts
  }

  /** What no act can take from an object, not even one that slips in, as long as no start is queued on it. */
  ghost predicate Spare(o: Obj) {
    && Single(o.proc, o.program)
    && (forall c :: 0 <= c < |o.calls| && o.calls[c].stage.StartQueued? ==>
                      o.calls[c].held && NothingPending(o.proc) && o.proc.state in {Stopped, Stopping})
    && (forall c, d :: 0 <= c < |o.calls| && 0 <= d < |o.calls| && Holds(o.calls[c]) && Holds(o.calls[d]) ==> c == d)
  }

  lemma OkIsSpare(o: Obj)
    requires ObjOk(o)
    ensures Spare(o)
  {
  }

  lemma NextSingle(o: Obj, act: Act)
    requires Single(o.proc, o.program) && CanAct(o, act) && (act.StartRuns? ==> NothingPending(o.proc))
    ensures Single(NextProc(o, act), o.program)
  {
    var p, program := o.proc, o.program;
    match act
    case StartRuns(_, launched) => StartIsSingle(p, program, launched);
    case GivesVerdict(r) => assert p.runs[r].Active(); VerdictIsSingle(p, program, r);
    case Restarts(r, launched) =>
      assert p.runs[r].Wakeable();
      StartIsSingle(SetPhase(p, r, Over).(state := Backoff), program, launched);
    case _ => hide StartSpec, JudgeSpec, RestartSpec;
  }

  lemma StartIsSingle(p: Proc, program: Program, launched: bool)
    requires NothingPending(p) && p.restartCount <= program.maxRestarts
    ensures Single(StartSpec(p, program, launched), program)
  {
  }

  lemma VerdictIsSingle(p: Proc, program: Program, r: nat)
    requires Single(p, program) && r < |p.runs| && p.runs[r].phase.Reaped?
    ensures Single(JudgeSpec(p, program, r), program)
  {
    var q := JudgeSpec(p, program, r);
    assert p.runs[r].Active();
    assert forall i :: 0 <= i < |p.runs| && i != r ==> q.runs[i] == p.runs[i];
  }

  lemma NextQueue(o: Obj, act: Act, c: nat)
    requires Spare(o) && CanAct(o, act) && c < |Next(o, act).calls| && Next(o, act).calls[c].stage.StartQueued?
    ensures Next(o, act).calls[c].held && NothingPending(NextProc(o, act))
    ensures NextProc(o, act).state in {Stopped, Stopping}
  {
    assert c < |o.calls| && o.calls[c].stage.StartQueued?;
    NextQuiet(o, act);
    hide Single, NothingPending, NextProc;
  }

  lemma NextHolders(o: Obj, act: Act, c: nat, d: nat)
    requires CanAct(o, act)
    requires c < |Next(o, act).calls| && Holds(Next(o, act).calls[c])
    requires d < |Next(o, act).calls| && Holds(Next(o, act).calls[d])
    ensures c < |o.calls| && Holds(o.calls[c]) && d < |o.calls| && Holds(o.calls[d])
  {
    hide NextProc;
  }

  lemma SpareKeeps(o: Obj, act: Act)
    requires Spare(o) && CanAct(o, act)
    ensures Spare(Next(o, act))
  {
    assert act.StartRuns? ==> NothingPending(o.proc);
    NextSingle(o, act);
    var next := Next(o, act);
    forall c | 0 <= c < |next.calls| && next.calls[c].stage.StartQueued?
      ensures next.calls[c].held && NothingPending(next.proc) && next.proc.state in {Stopped, Stopping}
    {
      NextQueue(o, act, c);
    }
    forall c, d | 0 <= c < |next.calls| && 0 <= d < |next.calls| && Holds(next.calls[c]) && Holds(next.calls[d])
      ensures c == d
    {
      NextHolders(o, act, c, d);
    }
    hide Single, NothingPending, NextProc, CanAct, NextStage;
  }

  // ---------------------------------------------------------------- an object left to itself

  ghost predicate CanLive(o: Obj, acts: seq<Act>)
    decreases |acts|
  {
    acts == [] || (CanAct(o, acts[0]) && CanLive(Next(o, acts[0]), acts[1..]))
  }

  ghost function Live(o: Obj, acts: seq<Act>): Obj
    requires CanLive(o, acts)
    decreases |acts|
  {
    if acts == [] then o else Live(Next(o, acts[0]), acts[1..])
  }

  predicate HasChild(o: Obj) {
    exists r :: 0 <= r < |o.proc.runs| && o.proc.runs[r].phase.Up?
  }

  /** The backoff of run r ends in a restart, or has. */
  predicate WillWake(p: Proc, r: nat)
    requires r < |p.runs|
  {
    p.runs[r].phase.Restarting? || (p.runs[r].Wakeable() && p.state != Stopping && !p.stoppedExternally)
  }

  /** The verdict on run r starts a backoff that ends in a restart. */
  predicate WillRestart(p: Proc, program: Program, r: nat)
    requires r < |p.runs|
  {
    var run := p.runs[r];
    && run.phase.Reaped? && run.live && run.stopOpen && Unrequested(p)
    && ShouldRestart(program.autorestart, run.phase.code)
    && (if run.phase.long then 0 else p.restartCount) < program.maxRestarts
  }

  /** Run r is a child, or will lead to one by itself. */
  predicate Lives(p: Proc, program: Program, r: nat)
    requires r < |p.runs|
  {
    p.runs[r].phase.Up? || WillWake(p, r) || WillRestart(p, program, r)
  }

  /** The object has a child, or something under way that can give it one. */
  ghost predicate Undead(o: Obj) {
    StartPending(o.calls) || exists r :: 0 <= r < |o.proc.runs| && Lives(o.proc, o.program, r)
  }

  lemma StoppedIsSpent(o: Obj)
    requires ObjOk(o) && o.proc.state == Stopped && !StartPending(o.calls)
    ensures !Undead(o)
  {
    forall r | 0 <= r < |o.proc.runs| ensures !Lives(o.proc, o.program, r) {
      assert !o.proc.runs[r].Active() && !o.proc.runs[r].Wakeable();
    }
  }

  ghost predicate NoneLives(p: Proc, program: Program) {
    forall r :: 0 <= r < |p.runs| ==> !Lives(p, program, r)
  }

  lemma JudgedSpent(p: Proc, program: Program, r: nat)
    requires Sound(p, program) && NoneLives(p, program) && r < |p.runs| && p.runs[r].phase.Reaped?
    ensures NoneLives(JudgeSpec(p, program, r), program)
  {
    var q := JudgeSpec(p, program, r);
    assert p.runs[r].Active() && !Lives(p, program, r);
    forall i | 0 <= i < |q.runs| ensures !Lives(q, program, i) {
      if i != r { assert !p.runs[i].Active() && !p.runs[i].Wakeable() && q.runs[i] == p.runs[i]; }
    }
  }

  lemma WokenSpent(p: Proc, program: Program, r: nat)
    requires Sound(p, program) && NoneLives(p, program) && r < |p.runs| && p.runs[r].Wakeable()
    ensures NoneLives(WakeSpec(p, r), program)
  {
    assert !Lives(p, program, r);
    var q := SetPhase(p, r, Over);
    assert WakeSpec(p, r) == q;
    forall i | 0 <= i < |q.runs| ensures !Lives(q, program, i) {
      if i != r { assert !Lives(p, program, i); }
    }
  }

  lemma MarkedSpent(p: Proc, program: Program)
    requires NoneLives(p, program)
    ensures NoneLives(StopMarkSpec(p), program)
  {
    var q := StopMarkSpec(p);
    forall i | 0 <= i < |q.runs| ensures !Lives(q, program, i) { assert !Lives(p, program, i); }
  }

  lemma LandedSpent(p: Proc, program: Program, seen: State, captured: Option<nat>)
    requires NoneLives(p, program) && (ReadsStopped(seen) ==> NothingPending(p))
    ensures NoneLives(StopLandSpec(p, seen, captured), program)
  {
    var q := StopLandSpec(p, seen, captured);
    forall i | 0 <= i < |q.runs| ensures !Lives(q, program, i) { assert !Lives(p, program, i); }
  }

  lemma ReturnedSpent(p: Proc, program: Program, captured: Option<nat>)
    requires NoneLives(p, program)
    ensures NoneLives(StopReturnSpec(p, captured), program)
  {
    var q := StopReturnSpec(p, captured);
    forall i | 0 <= i < |q.runs| ensures !Lives(q, program, i) { assert !Lives(p, program, i); }
  }

  lemma ChildLives(p: Proc, program: Program, r: nat)
    requires r < |p.runs| && (p.runs[r].phase.Up? || p.runs[r].phase.Restarting?)
    ensures !NoneLives(p, program)
  {
    assert Lives(p, program, r);
  }

  lemma OtherwiseSpent(o: Obj, act: Act)
    requires NoneLives(o.proc, o.program) && CanAct(o, act)
    requires act.CalledToStop? || act.StartSecs? || act.Abandons? || act.Probed?
    ensures NoneLives(NextProc(o, act), o.program)
  {
    var p, q := o.proc, NextProc(o, act);
    forall i | 0 <= i < |q.runs| ensures !Lives(q, o.program, i) { assert !Lives(p, o.program, i); }
  }

  lemma NextSpent(o: Obj, act: Act)
    requires Sound(o.proc, o.program) && LandingsOk(o.proc, o.calls) && CanAct(o, act) && !act.StartRuns?
    requires NoneLives(o.proc, o.program)
    ensures NoneLives(NextProc(o, act), o.program)
  {
    LandsOnNothing(o, act);
    hide Sound, LandingsOk, NoneLives, NothingPending, JudgeSpec, WakeSpec, StopMarkSpec, StopLandSpec, StopReturnSpec;
    var p, program := o.proc, o.program;
    match act
    case GivesVerdict(r) => JudgedSpent(p, program, r);
    case Wakes(r) => WokenSpent(p, program, r);
    case Restarts(r, _) => ChildLives(p, program, r);
    case StopMarks(_) => MarkedSpent(p, program);
    case StopLands(c) => LandedSpent(p, program, o.calls[c].stage.seen, o.calls[c].stage.captured);
    case StopReturns(c, _) => ReturnedSpent(p, program, o.calls[c].stage.captured);
    case ChildExits(r, _, _) => ChildLives(p, program, r);
    case _ => OtherwiseSpent(o, act);
  }

  /** The object has no child, nothing that leads to one, and no landing that would hide one. */
  ghost predicate AtRest(o: Obj) {
    Sound(o.proc, o.program) && LandingsOk(o.proc, o.calls) && !Undead(o)
  }

  lemma SpentIsAtRest(o: Obj)
    requires ObjOk(o) && !Undead(o)
    ensures AtRest(o)
  {
  }

  lemma LandingsStay(o: Obj, act: Act)
    requires Sound(o.proc, o.program) && LandingsOk(o.proc, o.calls) && CanAct(o, act) && !act.StartRuns?
    requires act.StopMarks? ==> !InGapStopped(o.proc)
    ensures LandingsOk(NextProc(o, act), Next(o, act).calls)
  {
    var calls := Next(o, act).calls;
    if NothingPending(o.proc) { NextQuiet(o, act); }
    if act.StopMarks? { StopMarkSound(o.proc, o.program); }
    hide Sound, NothingPending, NextProc;
    forall c | 0 <= c < |calls| && LandsStopped(calls[c])
      ensures NothingPending(NextProc(o, act))
    {
      if c < |o.calls| && !(act.StopMarks? && act.call == c) { assert LandsStopped(o.calls[c]); }
    }
  }

  lemma RestNotInGap(o: Obj)
    requires AtRest(o)
    ensures !InGap(o.proc)
  {
    forall r | 0 <= r < |o.proc.runs| ensures !o.proc.runs[r].phase.Restarting? { assert !Lives(o.proc, o.program, r); }
  }

  lemma RestStep(o: Obj, act: Act)
    requires AtRest(o) && CanAct(o, act)
    ensures AtRest(Next(o, act))
  {
    RestNotInGap(o);
    hide InGap;
    hide Sound, NextProc, NextStage, Lives, NothingPending, LandingsOk;
    assert !act.StartRuns?;
    NextSound(o, act);
    LandingsStay(o, act);
    NextSpent(o, act);
    NoStartAdded(o, act);
  }

  lemma LandsOnNothing(o: Obj, act: Act)
    requires LandingsOk(o.proc, o.calls) && CanAct(o, act)
    ensures act.StopLands? && ReadsStopped(o.calls[act.call].stage.seen) ==> NothingPending(o.proc)
  {
    if act.StopLands? && ReadsStopped(o.calls[act.call].stage.seen) { assert LandsStopped(o.calls[act.call]); }
  }

  lemma NoStartAdded(o: Obj, act: Act)
    requires CanAct(o, act) && !StartPending(o.calls)
    ensures !StartPending(Next(o, act).calls)
  {
    hide NextProc;
    var calls := Next(o, act).calls;
    forall c | 0 <= c < |calls| ensures !calls[c].stage.StartQueued? {
      if c < |o.calls| { assert !o.calls[c].stage.StartQueued?; }
    }
  }

  lemma {:induction false} RestForever(o: Obj, acts: seq<Act>)
    requires AtRest(o) && CanLive(o, acts)
    ensures !HasChild(Live(o, acts)) && AtRest(Live(o, acts))
    decreases |acts|
  {
    hide AtRest, CanAct, Next;
    if acts == [] {
      RestHasNoChild(o);
    } else {
      RestStep(o, acts[0]);
      RestForever(Next(o, acts[0]), acts[1..]);
    }
  }

  lemma RestHasNoChild(o: Obj)
    requires AtRest(o)
    ensures !HasChild(o)
  {
    forall r | 0 <= r < |o.proc.runs| ensures !o.proc.runs[r].phase.Up? { assert !Lives(o.proc, o.program, r); }
  }

  lemma LiveOnce(o: Obj, act: Act, acts: seq<Act>)
    requires CanAct(o, act) && CanLive(Next(o, act), acts)
    ensures CanLive(o, [act] + acts) && Live(o, [act] + acts) == Live(Next(o, act), acts)
  {
    hide CanAct, Next;
    assert ([act] + acts)[1..] == acts;
  }

  lemma StartForks(o: Obj, c: nat)
    requires ObjOk(o) && CanAct(o, StartRuns(c, true))
    ensures HasChild(Next(o, StartRuns(c, true)))
  {
    var p := NextProc(o, StartRuns(c, true));
    assert p.runs[|p.runs| - 1].phase.Up?;
  }

  lemma RestartForks(o: Obj, r: nat)
    requires r < |o.proc.runs| && o.proc.runs[r].phase.Restarting?
    ensures CanAct(o, Restarts(r, true)) && HasChild(Next(o, Restarts(r, true)))
  {
    var p := NextProc(o, Restarts(r, true));
    assert p.runs[|p.runs| - 1].phase.Up?;
  }

  lemma WakeRises(o: Obj, r: nat) returns (acts: seq<Act>)
    requires r < |o.proc.runs| && WillWake(o.proc, r)
    ensures CanLive(o, acts) && HasChild(Live(o, acts))
  {
    acts := [Restarts(r, true)] + [];
    if o.proc.runs[r].phase.Restarting? {
      RestartForks(o, r);
      LiveOnce(o, Restarts(r, true), []);
    } else {
      var woken := Next(o, Wakes(r));
      RestartForks(woken, r);
      LiveOnce(woken, Restarts(r, true), []);
      LiveOnce(o, Wakes(r), acts);
      acts := [Wakes(r)] + acts;
    }
  }

  lemma UndeadRises(o: Obj) returns (acts: seq<Act>)
    requires ObjOk(o) && Undead(o)
    ensures CanLive(o, acts) && HasChild(Live(o, acts))
  {
    if c :| 0 <= c < |o.calls| && o.calls[c].stage.StartQueued? {
      StartForks(o, c);
      LiveOnce(o, StartRuns(c, true), []);
      acts := [StartRuns(c, true)] + [];
    } else {
      var r :| 0 <= r < |o.proc.runs| && Lives(o.proc, o.program, r);
      if o.proc.runs[r].phase.Up? {
        acts := [];
      } else if WillWake(o.proc, r) {
        acts := WakeRises(o, r);
      } else {
        acts := WakeRises(Next(o, GivesVerdict(r)), r);
        LiveOnce(o, GivesVerdict(r), acts);
        acts := [GivesVerdict(r)] + acts;
      }
    }
  }

  /** Left to itself an object never has a child again, exactly when it has none and nothing that leads to one. */
  lemma NeverAgainIff(o: Obj)
    requires ObjOk(o)
    ensures !Undead(o) <==> forall acts :: CanLive(o, acts) ==> !HasChild(Live(o, acts))
  {
    hide *;
    if Undead(o) {
      var acts := UndeadRises(o);
      assert CanLive(o, acts) && HasChild(Live(o, acts));
    } else {
      SpentIsAtRest(o);
      forall acts | CanLive(o, acts) ensures !HasChild(Live(o, acts)) { RestForever(o, acts); }
    }
  }

  // ---------------------------------------------------------------- a stop with no start about

  ghost predicate NoneWakes(p: Proc) {
    forall r :: 0 <= r < |p.runs| ==> !p.runs[r].Wakeable()
  }

  /** Stop c is past its first half and waits, or will wait, for the monitor of the last run there will be. */
  ghost predicate Going(o: Obj, c: nat) {
    && c < |o.calls| && o.proc.stoppedExternally && NoneWakes(o.proc) && !StartPending(o.calls)
    && match o.calls[c].stage
       case StopMarked(_, _, awaited) => awaited == LastRun(o.proc)
       case StopWaiting(_, awaited) => awaited == LastRun(o.proc)
       case _ => false
  }

  lemma GoingStarts(o: Obj, c: nat)
    requires ObjOk(o) && CanAct(o, StopMarks(c)) && !StartPending(o.calls) && !InGap(o.proc)
    ensures Going(Next(o, StopMarks(c)), c)
  {
    StopMarkSound(o.proc, o.program);
    NoStartAdded(o, StopMarks(c));
    hide Sound, CallsOk, StartPending;
  }

  lemma GoingStep(o: Obj, c: nat, act: Act)
    requires Going(o, c) && CanAct(o, act) && CallOf(act) != Some(c)
    ensures Going(Next(o, act), c)
  {
    assert !act.StartRuns?;
    NoStartAdded(o, act);
    hide StartPending;
  }

  /** Landing where a running state was read, the stop goes on to wait. */
  lemma GoingLands(o: Obj, c: nat)
    requires Going(o, c) && CanAct(o, StopLands(c)) && !ReadsStopped(o.calls[c].stage.seen)
    ensures Going(Next(o, StopLands(c)), c) && Next(o, StopLands(c)).calls[c].stage.StopWaiting?
  {
    NoStartAdded(o, StopLands(c));
    hide StartPending;
  }

  /** Once nothing is pending and no start is queued, the object is at rest. */
  lemma NothingPendingRests(o: Obj)
    requires ObjOk(o) && NothingPending(o.proc) && !StartPending(o.calls)
    ensures AtRest(o)
  {
    forall r | 0 <= r < |o.proc.runs| ensures !Lives(o.proc, o.program, r) {
      assert !o.proc.runs[r].Active() && !o.proc.runs[r].Wakeable();
    }
    hide Lives, Sound;
  }

  /** A stop that has its monitor's word returns from an object at rest. */
  lemma GoingEnds(o: Obj, c: nat)
    requires ObjOk(o) && Going(o, c) && o.calls[c].stage.StopWaiting? && MonitorDone(o.proc, o.calls[c].stage.awaited)
    ensures AtRest(o)
  {
    forall r | 0 <= r < |o.proc.runs| ensures !o.proc.runs[r].Active() && !o.proc.runs[r].Wakeable() {}
    NothingPendingRests(o);
  }
}
