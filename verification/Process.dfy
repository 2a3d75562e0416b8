/** internal/process/process.go: the Process object, against the machine of Objects. */
module ManagedProcess {
  import opened Common
  import opened Configuration
  import opened Blocking
  import opened Lifecycle
  import opened Objects

  /** What a state change callback could see: the new state, and the latch at that moment. */
  datatype Published = Published(state: State, completed: bool)

  class Process {
    const name: string
    const program: Program
    var state: State
    var completed: bool
    var restartCount: nat
    var stoppedExternally: bool
    var health: Health
    var exitCode: int
    var runs: seq<Run>
    var stopRequested: Option<nat>
    var cancel: Option<nat>
    var published: seq<Published>
    /** The goroutines inside Start and Stop. */
    var calls: seq<Call>

    constructor (name: string, program: Program)
      ensures this.name == name && this.program == program
      ensures View() == NewObj(name, program) && published == []
    {
      this.name, this.program := name, program;
      calls := [];
      state, completed, restartCount, stoppedExternally := Stopped, false, 0, false;
      health, exitCode, runs, stopRequested, cancel := NoCheck, 0, [], None, None;
      published := [];
    }

    function Facts(): Proc
      reads this
    {
      Proc(state, completed, restartCount, stoppedExternally, health, exitCode, runs, stopRequested, cancel)
    }

    function View(): Obj
      reads this
    {
      Obj(name, program, Facts(), calls)
    }

    method SetState(newState: State)
      modifies this`state, this`published
      ensures state == newState
      ensures published == old(published) + if old(state) != newState then [Published(newState, completed)] else []
    {
      var prevState := state;
      state := newState;
      if prevState != newState {
        published := published + [Published(newState, completed)];
      }
    }

    method CompareAndSetState(from: State, to: State) returns (did: bool)
      modifies this`state, this`published
      ensures did == (old(state) == from)
      ensures state == if did then to else old(state)
    {
      if state != from { return false; }
      SetState(to);
      did := true;
    }

    method HasCompleted() returns (c: bool)
      ensures c == completed
    {
      c := completed;
    }

    method CancelContext(target: Option<nat>)
      modifies this`runs
      ensures runs == CancelRun(old(runs), target)
    {
      if target.Some? && target.value < |runs| {
        runs := runs[target.value := runs[target.value].(live := false)];
      }
    }

    method StopHealthChecks()
      modifies this`health
      ensures health == NoCheck
    {
      health := NoCheck;
    }

    /** Start; launched says whether log capture, command and fork succeed. */
    method Start(launched: bool) returns (ok: bool)
      modifies this
      ensures calls == old(calls)
      ensures Facts() == StartSpec(old(Facts()), program, launched)
      ensures ok == (Accepts(old(Facts())) && launched)
      ensures Accepts(old(Facts())) ==> !completed
    {
      if state == Running || state == Starting {
        return false;
      }
      completed := false;
      CancelContext(cancel);
      cancel := None;
      SetState(Starting);
      if !launched {
        SetState(Fatal);
        return false;
      }
      RecordRun();
      if program.hasHealthCheck { health := CheckStarting; }
      ok := true;
    }

    method RecordRun()
      modifies this`runs, this`stopRequested, this`cancel, this`stoppedExternally
      ensures runs == old(runs) + [Run(Up, true, true)]
      ensures stopRequested == Some(|old(runs)|) && cancel == Some(|old(runs)|) && !stoppedExternally
    {
      runs := runs + [Run(Up, true, true)];
      stopRequested, cancel := Some(|runs| - 1), Some(|runs| - 1);
      stoppedExternally := false;
    }

    method WaitForStartSuccess(r: nat)
      modifies this
      ensures calls == old(calls)
      ensures Facts() == StartSecsSpec(old(Facts()), r)
    {
      var promoted := CompareAndSetState(Starting, Running);
    }

    /** The monitor, as soon as it has the status of its run. */
    method RunExited(r: nat, status: Status, long: bool)
      requires r < |runs|
      modifies this
      ensures calls == old(calls)
      ensures Facts() == ReapedSpec(old(Facts()), r, status, long)
    {
      runs := runs[r := runs[r].(phase := Reaped(ExitCodeOf(status), long))];
      StopHealthChecks();
    }

    /** The monitor's verdict; EXITED is never visible before the completion is latched. */
    method Judge(r: nat)
      requires r < |runs| && runs[r].phase.Reaped?
      modifies this
      ensures calls == old(calls)
      ensures Facts() == JudgeSpec(old(Facts()), program, r)
      ensures Unrequested(old(Facts())) && old(runs[r].phase.code) == 0 ==>
                forall k :: |old(published)| <= k < |published| && published[k].state == Exited ==>
                              published[k].completed
    {
      var external, code := RecordExit(r);
      var current := state;
      if current == Stopping && external {
        SetState(Stopped);
      } else if current == Stopping {
        SetState(Exited);
      } else if external {
        SetState(Stopped);
      } else {
        FinishUnrequested(r, code);
      }
    }

    method RecordExit(r: nat) returns (external: bool, code: int)
      requires r < |runs| && runs[r].phase.Reaped?
      modifies this`exitCode, this`restartCount, this`runs
      ensures external == stoppedExternally && code == exitCode == old(runs[r].phase.code)
      ensures restartCount == if old(runs[r].phase.long) then 0 else old(restartCount)
      ensures runs == old(runs)[r := old(runs)[r].(phase := Over)]
    {
      exitCode := runs[r].phase.code;
      if runs[r].phase.long { restartCount := 0; }
      runs := runs[r := runs[r].(phase := Over)];
      external, code := stoppedExternally, exitCode;
    }

    method FinishUnrequested(r: nat, code: int)
      requires r < |runs|
      modifies this`completed, this`restartCount, this`state, this`runs, this`published
      ensures Facts() == MaybeRestartSpec(old(Facts()).(state := Exited, completed := old(completed) || code == 0),
                                         program, r, code)
      ensures code == 0 ==>
                forall k :: |old(published)| <= k < |published| && published[k].state == Exited ==>
                              published[k].completed
    {
      if code == 0 { completed := true; }
      SetState(Exited);
      MaybeRestart(r, code);
    }

    method MaybeRestart(r: nat, code: int)
      requires r < |runs|
      modifies this`restartCount, this`state, this`runs, this`published
      ensures Facts() == MaybeRestartSpec(old(Facts()), program, r, code)
      ensures program.autorestart == Always || (program.autorestart == Unexpected && code != 0) ==>
                if old(restartCount) < program.maxRestarts then
                  && restartCount == old(restartCount) + 1 && runs[r].phase == Waiting(restartCount)
                  && state == old(state)
                else
                  state == Fatal && runs == old(runs)
      ensures program.autorestart == Never || (program.autorestart == Unexpected && code == 0) ==>
                Facts() == old(Facts())
      ensures old(published) <= published
      ensures forall k :: |old(published)| <= k < |published| ==> published[k].state == Fatal
    {
      var shouldRestart := false;
      match program.autorestart {
        case Always => shouldRestart := true;
        case Unexpected => shouldRestart := code != 0;
        case Never =>
      }
      if !shouldRestart { return; }
      if restartCount >= program.maxRestarts {
        SetState(Fatal);
        return;
      }
      restartCount := restartCount + 1;
      runs := runs[r := runs[r].(phase := Waiting(restartCount))];
    }

    /** maybeRestart, once the backoff has passed undisturbed: the cancel check. */
    method Wake(r: nat) returns (canceled: bool)
      requires r < |runs|
      modifies this`runs
      ensures Facts() == WakeSpec(old(Facts()), r)
      ensures canceled == (stoppedExternally || state == Stopping)
    {
      canceled := stoppedExternally || state == Stopping;
      runs := runs[r := runs[r].(phase := if canceled then Over else Restarting)];
    }

    /** The rest of maybeRestart. */
    method Restart(r: nat, launched: bool)
      requires r < |runs|
      modifies this
      ensures calls == old(calls)
      ensures Facts() == RestartSpec(old(Facts()), program, r, launched)
    {
      runs := runs[r := runs[r].(phase := Over)];
      SetState(Backoff);
      var ok := Start(launched);
      if !ok { SetState(Fatal); }
    }

    /** The half of Stop under the lock, and what follows it at once. */
    method MarkStop() returns (seen: State, captured: Option<nat>, awaited: Option<nat>)
      modifies this`stoppedExternally, this`stopRequested, this`runs, this`health
      ensures Facts() == StopMarkSpec(old(Facts()))
      ensures seen == old(state) && captured == old(cancel) && awaited == LastRun(old(Facts()))
    {
      stoppedExternally := true;
      seen, captured := state, cancel;
      awaited := if |runs| > 0 then Some(|runs| - 1) else None;
      var channel := stopRequested;
      stopRequested := None;
      if channel.Some? && channel.value < |runs| {
        runs := runs[channel.value := runs[channel.value].(stopOpen := false)];
      }
      StopHealthChecks();
    }

    /** The half of Stop after that; waits says whether it goes on to wait for a monitor. */
    method LandStop(seen: State, captured: Option<nat>) returns (waits: bool)
      modifies this`state, this`runs, this`published
      ensures Facts() == StopLandSpec(old(Facts()), seen, captured) && waits == !ReadsStopped(seen)
    {
      if IsStopped(seen) || seen == Backoff {
        CancelContext(captured);
        SetState(Stopped);
        return false;
      }
      SetState(Stopping);
      waits := true;
    }

    // ------------------------------------------------------------ what happens to the object

    /** runAction hands the object to a goroutine. */
    method Queue(stage: Stage)
      modifies this`calls
      ensures View() == WithCall(old(View()), stage)
      ensures calls == old(calls) + [Call(stage, true)]
    {
      calls := calls + [Call(stage, true)];
    }

    /** A goroutine that is inside Start or Stop gets on; finished says whether it is a queued action that is over. */
    method Advance(c: nat, stage: Stage) returns (finished: bool)
      requires c < |calls|
      modifies this`calls
      ensures calls == old(calls)[c := old(calls)[c].(stage := stage)]
      ensures finished == (old(calls)[c].held && stage.Done?)
    {
      finished := calls[c].held && stage.Done?;
      calls := calls[c := calls[c].(stage := stage)];
    }

    method Act(act: Act) returns (finished: bool)
      requires CanAct(View(), act)
      modifies this
      ensures View() == Next(old(View()), act)
      ensures finished == Clears(old(View()), act)
    {
      finished := false;
      match act {
        case CalledToStop => calls := calls + [Call(StopCalled, false)];
        case StartRuns(c, launched) =>
          var ok := Start(launched);
          finished := Advance(c, Done);
        case StopMarks(c) =>
          var seen, captured, awaited := MarkStop();
          finished := Advance(c, StopMarked(seen, captured, awaited));
        case StopLands(c) =>
          var stage := calls[c].stage;
          var waits := LandStop(stage.seen, stage.captured);
          finished := Advance(c, if waits then StopWaiting(stage.captured, stage.awaited) else Done);
        case StopReturns(c, _) =>
          CancelContext(calls[c].stage.captured);
          finished := Advance(c, Done);
        case ChildExits(r, status, long) => RunExited(r, status, long);
        case GivesVerdict(r) => Judge(r);
        case StartSecs(r) => WaitForStartSuccess(r);
        case Wakes(r) => var canceled := Wake(r);
        case Restarts(r, launched) => Restart(r, launched);
        case Abandons(r) => runs := runs[r := runs[r].(phase := Over)];
        case Probed(result) => health := result;
      }
    }
  }
}
