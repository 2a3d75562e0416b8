/** internal/process/process.go: one process object, as a state machine on values. */
module Lifecycle {
  import opened Common
  import opened Configuration
  import opened Blocking

  /** How a child ended. */
  datatype Status = ExitedWith(code: nat) | KilledBy(sig: nat)

  /** reaper.go, exitCodeOfStatus. */
  function ExitCodeOf(status: Status): int {
    match status
    case ExitedWith(code) => code
    case KilledBy(_) => -1
  }

  /** Where the monitor of a run has got to. */
  datatype Phase =
    | Up                                // the child has not been reaped
    | Reaped(code: int, long: bool)     // its status arrived; long: it was up for healthyUptime
    | Waiting(attempt: nat)             // sitting out the backoff before a restart
    | Restarting                        // past the cancel check that follows it
    | Over

  /** A run: its monitor, its context, and the channel Stop closes. */
  datatype Run = Run(phase: Phase, live: bool, stopOpen: bool) {
    /** There is a child, or its exit is still to be judged. */
    predicate Active() {
      phase.Up? || phase.Reaped?
    }

    /** Another run may still follow. */
    predicate Wakeable() {
      phase.Restarting? || (phase.Waiting? && live && stopOpen)
    }
  }

  /** A process; runs are numbered in the order they were launched. */
  datatype Proc = Proc(
    state: State,
    completed: bool,
    restartCount: nat,
    stoppedExternally: bool,
    health: Health,
    exitCode: int,
    runs: seq<Run>,
    stopRequested: Option<nat>,  // the run whose channel the next Stop closes
    cancel: Option<nat>)         // the run whose context the next Start or Stop cancels

  const NEW_PROC := Proc(Stopped, false, 0, false, NoCheck, 0, [], None, None)

  const MAX_BACKOFF_SECONDS := 30
  const MAX_BACKOFF_SHIFT := 5

  function Pow2(n: nat): (p: nat)
    ensures p > 0
  {
    if n == 0 then 1 else 2 * Pow2(n - 1)
  }

  /** backoffDuration, in seconds. */
  function BackoffSeconds(attempt: int): nat {
    var shift := attempt - 1;
    var shift := if shift < 0 then 0 else shift;
    var shift := if shift > MAX_BACKOFF_SHIFT then MAX_BACKOFF_SHIFT else shift;
    if Pow2(shift) < MAX_BACKOFF_SECONDS then Pow2(shift) else MAX_BACKOFF_SECONDS
  }

  lemma {:induction false} Pow2Grows(m: nat, n: nat)
    requires m <= n
    ensures Pow2(m) <= Pow2(n)
  {
    if m < n { Pow2Grows(m, n - 1); }
  }

  /** Capping the exponent does not change the delay: attempt n waits min(2^(n-1), 30) seconds. */
  lemma BackoffIsCapped(n: nat)
    requires n >= 1
    ensures BackoffSeconds(n) == if Pow2(n - 1) <= 30 then Pow2(n - 1) else 30
  {
    assert Pow2(5) == 32;
    if n - 1 >= 5 { Pow2Grows(5, n - 1); }
  }

  function CancelRun(runs: seq<Run>, target: Option<nat>): (r: seq<Run>)
    ensures |r| == |runs|
  {
    if target.Some? && target.value < |runs| then runs[target.value := runs[target.value].(live := false)] else runs
  }

  function CloseStop(runs: seq<Run>, target: Option<nat>): (r: seq<Run>)
    ensures |r| == |runs|
  {
    if target.Some? && target.value < |runs| then runs[target.value := runs[target.value].(stopOpen := false)] else runs
  }

  /** Start refuses a program that is up. */
  predicate Accepts(p: Proc) {
    p.state != Running && p.state != Starting
  }

  /** Start; launched says whether logging, command and fork all succeeded. */
  function StartSpec(p: Proc, program: Program, launched: bool): Proc {
    if !Accepts(p) then p
    else
      var runs := CancelRun(p.runs, p.cancel);
      if launched then
        p.(state := Starting, completed := false, stoppedExternally := false,
           health := if program.hasHealthCheck then CheckStarting else p.health,
           runs := runs + [Run(Up, true, true)],
           stopRequested := Some(|runs|), cancel := Some(|runs|))
      else
        p.(state := Fatal, completed := false, runs := runs, cancel := None)
  }

  /** waitForStartSuccess, when the timer of run r fires. */
  function StartSecsSpec(p: Proc, r: nat): Proc {
    if p.state == Starting then p.(state := Running) else p
  }

  /** The reaper delivers the status of run r; the monitor ends the health checks. */
  function ReapedSpec(p: Proc, r: nat, status: Status, long: bool): Proc
    requires r < |p.runs|
  {
    p.(runs := p.runs[r := p.runs[r].(phase := Reaped(ExitCodeOf(status), long))], health := NoCheck)
  }

  function SetPhase(p: Proc, r: nat, phase: Phase): (q: Proc)
    requires r < |p.runs|
    ensures |q.runs| == |p.runs|
  {
    p.(runs := p.runs[r := p.runs[r].(phase := phase)])
  }

  predicate ShouldRestart(policy: RestartPolicy, code: int) {
    policy == Always || (policy == Unexpected && code != 0)
  }

  /** maybeRestart, up to the backoff. */
  function MaybeRestartSpec(p: Proc, program: Program, r: nat, code: int): Proc
    requires r < |p.runs|
  {
    if !ShouldRestart(program.autorestart, code) then p
    else if p.restartCount >= program.maxRestarts then p.(state := Fatal)
    else SetPhase(p.(restartCount := p.restartCount + 1), r, Waiting(p.restartCount + 1))
  }

  /** Nobody asked for the exit the monitor is judging. */
  predicate Unrequested(p: Proc) {
    p.state != Stopping && !p.stoppedExternally
  }

  /** The monitor's verdict on a reaped run, restart policy included. */
  function JudgeSpec(p: Proc, program: Program, r: nat): Proc
    requires r < |p.runs| && p.runs[r].phase.Reaped?
  {
    var code := p.runs[r].phase.code;
    var count := if p.runs[r].phase.long then 0 else p.restartCount;
    var seen := p.(exitCode := code, restartCount := count);
    if p.state == Stopping && p.stoppedExternally then SetPhase(seen.(state := Stopped), r, Over)
    else if p.state == Stopping then SetPhase(seen.(state := Exited), r, Over)
    else if p.stoppedExternally then SetPhase(seen.(state := Stopped), r, Over)
    else
      var ended := seen.(state := Exited, completed := p.completed || code == 0);
      MaybeRestartSpec(SetPhase(ended, r, Over), program, r, code)
  }

  /** The backoff of run r is over: the cancel check. */
  function WakeSpec(p: Proc, r: nat): Proc
    requires r < |p.runs|
  {
    SetPhase(p, r, if p.stoppedExternally || p.state == Stopping then Over else Restarting)
  }

  /** The restart, which does not look again. */
  function RestartSpec(p: Proc, program: Program, r: nat, launched: bool): Proc
    requires r < |p.runs|
  {
    StartSpec(SetPhase(p, r, Over).(state := Backoff), program, launched)
  }

  /** Between the cancel check and the restart. */
  predicate InGap(p: Proc) {
    exists r :: 0 <= r < |p.runs| && p.runs[r].phase.Restarting?
  }

  /** The half of Stop under the lock, and what follows it at once: the mark, the channel, the health checks. */
  function StopMarkSpec(p: Proc): Proc {
    p.(stoppedExternally := true, runs := CloseStop(p.runs, p.stopRequested), stopRequested := None, health := NoCheck)
  }

  predicate ReadsStopped(seen: State) {
    IsStopped(seen) || seen == Backoff
  }

  /** The half of Stop after that, acting on the state and the context the first half saw. */
  function StopLandSpec(p: Proc, seen: State, captured: Option<nat>): Proc {
    if ReadsStopped(seen) then p.(runs := CancelRun(p.runs, captured), state := Stopped)
    else p.(state := Stopping)
  }

  /** Stop returns from waiting and cancels the context it picked up on the way in. */
  function StopReturnSpec(p: Proc, captured: Option<nat>): Proc {
    p.(runs := CancelRun(p.runs, captured))
  }

  /** In the gap, in a state that Stop takes for stopped. */
  predicate InGapStopped(p: Proc) {
    InGap(p) && ReadsStopped(p.state)
  }

  /** No run of the process can bring a child back by itself. */
  ghost predicate NothingPending(p: Proc) {
    forall r :: 0 <= r < |p.runs| ==> !p.runs[r].Active() && !p.runs[r].Wakeable()
  }

  /** What every step keeps for one process. */
  ghost predicate Sound(p: Proc, program: Program) {
    && (forall r :: 0 <= r < |p.runs| && p.runs[r].Active() ==>
                      r == |p.runs| - 1 && p.state in {Starting, Running, Stopping})
    && (forall r :: 0 <= r < |p.runs| && p.runs[r].Wakeable() ==>
                      r == |p.runs| - 1 && p.state in {Exited, Stopping}
                      && (!p.runs[r].phase.Restarting? ==>
                            !p.stoppedExternally && p.cancel == Some(r) && p.stopRequested == Some(r)))
    && (p.state in {Starting, Running} ==>
          && |p.runs| > 0 && p.runs[|p.runs| - 1].Active() && p.cancel == Some(|p.runs| - 1)
          && (if p.stoppedExternally then !p.runs[|p.runs| - 1].stopOpen
              else p.stopRequested == Some(|p.runs| - 1) && p.runs[|p.runs| - 1].stopOpen))
    && (p.stopRequested.Some? ==> p.stopRequested.value == |p.runs| - 1)
    && (p.cancel.Some? ==> p.cancel.value < |p.runs|)
    && p.state != Backoff
    && p.restartCount <= program.maxRestarts
  }

  lemma StartSound(p: Proc, program: Program, launched: bool)
    requires Sound(p, program) && NothingPending(p)
    ensures Sound(StartSpec(p, program, launched), program)
  {
  }

  lemma WakeSound(p: Proc, program: Program, r: nat)
    requires Sound(p, program) && r < |p.runs| && p.runs[r].Wakeable()
    ensures Sound(WakeSpec(p, r), program)
  {
  }

  lemma RestartSound(p: Proc, program: Program, r: nat, launched: bool)
    requires Sound(p, program) && r < |p.runs| && p.runs[r].phase.Restarting?
    ensures Sound(RestartSpec(p, program, r, launched), program)
  {
    assert p.runs[r].Wakeable();
    var woken := SetPhase(p, r, Over).(state := Backoff);
    assert NothingPending(woken);
    IdleStartSound(woken, program, launched);
  }

  /** A start over nothing, from whatever state it is accepted in. */
  lemma IdleStartSound(p: Proc, program: Program, launched: bool)
    requires NothingPending(p) && Accepts(p) && p.restartCount <= program.maxRestarts
    requires p.stopRequested.Some? ==> p.stopRequested.value == |p.runs| - 1
    ensures Sound(StartSpec(p, program, launched), program)
  {
  }

  lemma JudgeSound(p: Proc, program: Program, r: nat)
    requires Sound(p, program) && r < |p.runs| && p.runs[r].phase.Reaped?
    ensures Sound(JudgeSpec(p, program, r), program)
  {
    var q := JudgeSpec(p, program, r);
    assert p.runs[r].Active();
    assert |q.runs| == r + 1;
    assert forall i :: 0 <= i < r ==> q.runs[i] == p.runs[i] && !p.runs[i].Active() && !p.runs[i].Wakeable();
  }

  lemma StopMarkSound(p: Proc, program: Program)
    requires Sound(p, program) && !InGapStopped(p)
    ensures Sound(StopMarkSpec(p), program)
    ensures !InGap(p) ==> forall r :: 0 <= r < |p.runs| ==> !StopMarkSpec(p).runs[r].Wakeable()
    ensures ReadsStopped(p.state) ==> NothingPending(StopMarkSpec(p))
  {
  }

  /** Landing is harmless unless it calls a process STOPPED that has something pending. */
  lemma StopLandSound(p: Proc, program: Program, seen: State, captured: Option<nat>)
    requires Sound(p, program)
    requires ReadsStopped(seen) ==> NothingPending(p)
    ensures Sound(StopLandSpec(p, seen, captured), program)
    ensures NothingPending(p) ==> NothingPending(StopLandSpec(p, seen, captured))
  {
  }

  lemma StopReturnSound(p: Proc, program: Program, captured: Option<nat>)
    requires Sound(p, program)
    ensures Sound(StopReturnSpec(p, captured), program)
    ensures NothingPending(p) ==> NothingPending(StopReturnSpec(p, captured))
  {
  }

  lemma ReapedSound(p: Proc, program: Program, r: nat, status: Status, long: bool)
    requires Sound(p, program) && r < |p.runs| && p.runs[r].phase.Up?
    ensures Sound(ReapedSpec(p, r, status, long), program)
  {
    assert p.runs[r].Active();
  }

  lemma StartSecsSound(p: Proc, program: Program, r: nat)
    requires Sound(p, program)
    ensures Sound(StartSecsSpec(p, r), program)
  {
  }

  lemma AbandonSound(p: Proc, program: Program, r: nat)
    requires Sound(p, program) && r < |p.runs| && p.runs[r].phase.Waiting?
    ensures Sound(SetPhase(p, r, Over), program)
  {
  }

  lemma ProbedSound(p: Proc, program: Program, health: Health)
    requires Sound(p, program)
    ensures Sound(p.(health := health), program)
  {
  }

  /** In a state that counts as stopped there is no child and no verdict outstanding. */
  lemma StoppedHasNoChild(p: Proc, program: Program, r: nat)
    requires Sound(p, program) && IsStopped(p.state) && r < |p.runs|
    ensures !p.runs[r].Active()
    ensures p.state != Exited ==> !p.runs[r].Wakeable()
  {
  }

  /** A process has at most one child that has not been reaped. */
  lemma OneChild(p: Proc, program: Program, i: nat, j: nat)
    requires Sound(p, program) && i < |p.runs| && j < |p.runs|
    requires p.runs[i].phase.Up? && p.runs[j].phase.Up?
    ensures i == j
  {
  }
}
