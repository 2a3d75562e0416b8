/** internal/process/health.go: what a program's health check says about it. */
module HealthChecks {
  import opened Common
  import opened Blocking

  /** One probe: its result, and when the result was judged. */
  datatype Attempt = Attempt(passed: bool, judged: int)

  /** config.HealthCheck; the configuration refuses a smaller number of retries. */
  datatype Check = Check(retries: nat, startPeriod: nat, usable: bool)

  datatype Change = Change(prev: Health, now: Health)

  // ---------------------------------------------------------------- the whole history

  function TrailingFailures(h: seq<Attempt>): (n: nat)
    ensures n <= |h|
  {
    if h == [] || h[|h| - 1].passed then 0 else 1 + TrailingFailures(h[..|h| - 1])
  }

  predicate EverPassed(h: seq<Attempt>) {
    exists a :: a in h && a.passed
  }

  /** What a history of attempts amounts to. */
  function Verdict(h: seq<Attempt>, retries: nat, graceEnd: int): Health {
    if EverPassed(h) && TrailingFailures(h) < retries then CheckHealthy
    else if TrailingFailures(h) >= retries && (EverPassed(h) || (h != [] && h[|h| - 1].judged >= graceEnd)) then
      CheckUnhealthy
    else CheckStarting
  }

  predicate Ordered(h: seq<Attempt>) {
    forall i, j :: 0 <= i < j < |h| ==> h[i].judged <= h[j].judged
  }

  /** The changes of verdict along a history, oldest first. */
  function Changes(h: seq<Attempt>, retries: nat, graceEnd: int): seq<Change> {
    if h == [] then []
    else
      var before := h[..|h| - 1];
      Changes(before, retries, graceEnd) +
      Notice(Verdict(before, retries, graceEnd), Verdict(h, retries, graceEnd))
  }

  function Notice(prev: Health, now: Health): seq<Change> {
    if prev == now then [] else [Change(prev, now)]
  }

  /** The trailing failures are the longest run of failures at the end. */
  lemma {:induction false} TrailingFailuresFollowTheLastPass(h: seq<Attempt>)
    ensures var n := TrailingFailures(h);
      && (forall i :: |h| - n <= i < |h| ==> !h[i].passed)
      && (n < |h| ==> h[|h| - n - 1].passed)
  {
    if h != [] && !h[|h| - 1].passed { TrailingFailuresFollowTheLastPass(h[..|h| - 1]); }
  }

  lemma PassedBefore(h: seq<Attempt>, a: Attempt)
    ensures EverPassed(h + [a]) <==> EverPassed(h) || a.passed
    ensures TrailingFailures(h + [a]) == if a.passed then 0 else TrailingFailures(h) + 1
  {
  }

  /** One more attempt: the rule probeLoop applies to its two counters. */
  lemma VerdictSteps(h: seq<Attempt>, a: Attempt, retries: nat, graceEnd: int)
    requires retries >= 1 && Ordered(h + [a])
    ensures Verdict(h + [a], retries, graceEnd) ==
            if a.passed then CheckHealthy
            else if TrailingFailures(h) + 1 >= retries && (EverPassed(h) || a.judged >= graceEnd) then CheckUnhealthy
            else Verdict(h, retries, graceEnd)
  {
  }

  lemma ChangesStep(h: seq<Attempt>, a: Attempt, retries: nat, graceEnd: int)
    ensures Changes(h + [a], retries, graceEnd) ==
            Changes(h, retries, graceEnd) + Notice(Verdict(h, retries, graceEnd), Verdict(h + [a], retries, graceEnd))
  {
  }

  /** Failures inside the grace period count: the first attempt judged after it can already be one too many. */
  lemma GraceFailuresCount(h: seq<Attempt>, last: Attempt, retries: nat, graceEnd: int)
    requires retries >= 1 && |h| + 1 >= retries && (forall a :: a in h ==> !a.passed && a.judged < graceEnd)
    requires !last.passed
    ensures Verdict(h, retries, graceEnd) == CheckStarting
    ensures Verdict(h + [last], retries, graceEnd) ==
            if last.judged >= graceEnd then CheckUnhealthy else CheckStarting
  {
    PassedBefore(h, last);
    NeverPassed(h);
  }

  lemma {:induction false} NeverPassed(h: seq<Attempt>)
    requires forall a :: a in h ==> !a.passed
    ensures TrailingFailures(h) == |h|
  {
    if h != [] {
      assert h[|h| - 1] in h;
      NeverPassed(h[..|h| - 1]);
    }
  }

  lemma AtFirst(h: seq<Attempt>, retries: nat, graceEnd: int)
    requires retries >= 1
    ensures h[..0] == [] && TrailingFailures([]) == 0 && !EverPassed([])
    ensures Verdict([], retries, graceEnd) == CheckStarting && Changes([], retries, graceEnd) == []
  {
  }

  lemma OrderedPrefix(h: seq<Attempt>, i: nat)
    requires Ordered(h) && i < |h|
    ensures h[..i] + [h[i]] == h[..i + 1] && Ordered(h[..i + 1])
  {
  }

  // ---------------------------------------------------------------- the checker

  /** The health part of a Process: a health never set reads as none. */
  class Checker {
    const check: Option<Check>
    var health: Option<Health>
    var probing: bool
    var changes: seq<Change>

    constructor (check: Option<Check>)
      ensures this.check == check && GetHealth() == NoCheck && !probing && changes == []
    {
      this.check := check;
      health, probing, changes := None, false, [];
    }

    function GetHealth(): Health
      reads this
    {
      if health.None? then NoCheck else health.value
    }

    /** The callback hears of changes only. */
    method SetHealth(now: Health)
      modifies this`health, this`changes
      ensures GetHealth() == now
      ensures changes == old(changes) + Notice(old(GetHealth()), now)
    {
      var prevHealth := if health.None? then NoCheck else health.value;
      health := Some(now);
      if prevHealth == now {
        return;
      }
      changes := changes + [Change(prevHealth, now)];
    }

    /** A check that cannot be probed leaves the program without one. */
    method StartHealthChecks()
      modifies this
      ensures probing == (old(probing) || (check.Some? && check.value.usable))
      ensures GetHealth() == if check.Some? && check.value.usable then CheckStarting else old(GetHealth())
      ensures changes == old(changes) + Notice(old(GetHealth()), GetHealth())
    {
      if check.None? || !check.value.usable {
        return;
      }
      probing := true;
      SetHealth(CheckStarting);
    }

    /** Without probing there is nothing to clear, so a second call does nothing. */
    method StopHealthChecks()
      modifies this
      ensures !probing
      ensures GetHealth() == if old(probing) then NoCheck else old(GetHealth())
      ensures changes == old(changes) + Notice(old(GetHealth()), GetHealth())
    {
      var cancel := probing;
      probing := false;
      if !cancel {
        return;
      }
      SetHealth(NoCheck);
    }

    /**
     * The attempts of one run, of which the one numbered cut is overtaken by the end of the run: when it ends the
     * health is the verdict on those judged, and the callback has heard of each change of verdict, once.
     */
    method ProbeLoop(check: Check, started: int, attempts: seq<Attempt>, cut: nat)
      requires check.retries >= 1 && Ordered(attempts) && GetHealth() == CheckStarting
      modifies this`health, this`changes
      ensures var judged := if cut <= |attempts| then attempts[..cut] else attempts;
        && GetHealth() == Verdict(judged, check.retries, started + check.startPeriod)
        && changes == old(changes) + Changes(judged, check.retries, started + check.startPeriod)
    {
      hide TrailingFailures, EverPassed, Verdict, Changes, Ordered;
      var graceEnd := started + check.startPeriod;
      AtFirst(attempts, check.retries, graceEnd);
      var everHealthy := false;
      var failures := 0;
      var i := 0;
      while i < |attempts|
        invariant 0 <= i <= |attempts| && i <= cut
        invariant failures == TrailingFailures(attempts[..i]) && everHealthy == EverPassed(attempts[..i])
        invariant GetHealth() == Verdict(attempts[..i], check.retries, graceEnd)
        invariant changes == old(changes) + Changes(attempts[..i], check.retries, graceEnd)
      {
        if i == cut {
          return;
        }
        var a := attempts[i];
        OrderedPrefix(attempts, i);
        PassedBefore(attempts[..i], a);
        VerdictSteps(attempts[..i], a, check.retries, graceEnd);
        ChangesStep(attempts[..i], a, check.retries, graceEnd);
        if a.passed {
          failures := 0;
          everHealthy := true;
          SetHealth(CheckHealthy);
        } else {
          failures := failures + 1;
          if failures >= check.retries && (everHealthy || a.judged >= graceEnd) {
            SetHealth(CheckUnhealthy);
          }
        }
        i := i + 1;
      }
      assert attempts[..i] == attempts;
    }
  }
}
