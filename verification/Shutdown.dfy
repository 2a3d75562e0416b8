/** internal/server/server.go: the order in which a shutdown calls Stop, tier by tier. */
module Shutdown {
  import opened Common
  import opened Dependencies
  import Graphs = DependencyGraph
  import opened Configuration
  import opened Blocking
  import opened Lifecycle
  import opened Objects
  import opened Supervisor

  datatype StopEvent = Called(name: string) | Returned(name: string)

  /** e happened, and f after it. */
  ghost predicate Before(log: seq<StopEvent>, e: StopEvent, f: StopEvent) {
    exists i, j :: 0 <= i < j < |log| && log[i] == e && log[j] == f
  }

  /** Stop was called exactly once on each of names, on nothing else, and every call returned. */
  ghost predicate StopsEach(log: seq<StopEvent>, names: set<string>) {
    && NoDup(log)
    && (forall e :: e in log ==> e.name in names)
    && (forall n :: n in names ==> Before(log, Called(n), Returned(n)))
  }

  lemma BeforeAppend(log: seq<StopEvent>, more: seq<StopEvent>, e: StopEvent, f: StopEvent)
    ensures Before(log, e, f) ==> Before(log + more, e, f)
    ensures Before(more, e, f) ==> Before(log + more, e, f)
    ensures e in log && f in more ==> Before(log + more, e, f)
  {
    if Before(log, e, f) {
      var i, j :| 0 <= i < j < |log| && log[i] == e && log[j] == f;
      assert (log + more)[i] == e && (log + more)[j] == f;
    }
    if Before(more, e, f) {
      var i, j :| 0 <= i < j < |more| && more[i] == e && more[j] == f;
      assert (log + more)[|log| + i] == e && (log + more)[|log| + j] == f;
    }
    if e in log && f in more {
      var i :| 0 <= i < |log| && log[i] == e;
      var j :| 0 <= j < |more| && more[j] == f;
      assert (log + more)[i] == e && (log + more)[|log| + j] == f;
    }
  }

  lemma StopsAppend(log: seq<StopEvent>, names: set<string>, more: seq<StopEvent>, others: set<string>)
    requires StopsEach(log, names) && StopsEach(more, others) && names !! others
    ensures StopsEach(log + more, names + others)
  {
    forall e | e in Elements(log) ensures e !in Elements(more) {}
    NoDupAppend(log, more);
    forall n | n in names + others ensures Before(log + more, Called(n), Returned(n)) {
      BeforeAppend(log, more, Called(n), Returned(n));
    }
  }

  /** A dependent's Stop has returned before its dependency's Stop is called. */
  ghost predicate DependentsFirst(log: seq<StopEvent>, deps: Listing, names: set<string>) {
    forall n, d :: Edge(deps, n, d) && d in names ==> Before(log, Returned(n), Called(d))
  }

  /** A tier half way: uncalled are yet to be stopped, waiting have a Stop that has not returned. */
  ghost predicate StopsSoFar(log: seq<StopEvent>, names: set<string>, uncalled: set<string>, waiting: set<string>) {
    && uncalled !! waiting && uncalled + waiting <= names
    && NoDup(log)
    && (forall e :: e in log ==> e.name in names - uncalled)
    && (forall n :: n in waiting ==> Called(n) in log && Returned(n) !in log)
    && (forall n :: n in names - uncalled - waiting ==> Before(log, Called(n), Returned(n)))
  }

  lemma StopsNone(names: set<string>)
    ensures StopsSoFar([], names, names, {})
  {
  }

  lemma StopsAll(log: seq<StopEvent>, names: set<string>)
    requires StopsSoFar(log, names, {}, {})
    ensures StopsEach(log, names)
  {
  }

  lemma StopsStep(log: seq<StopEvent>, names: set<string>, uncalled: set<string>, waiting: set<string>, name: string)
    requires StopsSoFar(log, names, uncalled, waiting)
    ensures name in uncalled ==>
              name !in waiting && name in names
              && StopsSoFar(log + [Called(name)], names, uncalled - {name}, waiting + {name})
    ensures name in waiting ==> StopsSoFar(log + [Returned(name)], names, uncalled, waiting - {name})
  {
    var event := if name in uncalled then Called(name) else Returned(name);
    forall n | n in names - uncalled - waiting ensures Before(log + [event], Called(n), Returned(n)) {
      BeforeAppend(log, [event], Called(n), Returned(n));
    }
    if name in waiting { BeforeAppend(log, [event], Called(name), event); }
  }

  /** Every program once, ordered by tiers when they exist and in one group when they do not. */
  ghost predicate Plan(deps: Listing, tiers: seq<seq<string>>, ordered: bool) {
    if ordered then Graphs.AreTiers(deps, tiers) else |tiers| == 1 && Elements(tiers[0]) == deps.Keys
  }

  /** Shutdown down to tier: the programs of the tiers above it are stopped. */
  ghost predicate ShutDown(deps: Listing, tiers: seq<seq<string>>, tier: nat, stopped: set<string>,
                           log: seq<StopEvent>, ordered: bool) {
    && Plan(deps, tiers, ordered)
    && Above(tiers, tier, stopped)
    && StopsEach(log, stopped)
    && (ordered ==> DependentsFirst(log, deps, stopped))
  }

  ghost predicate Above(tiers: seq<seq<string>>, tier: nat, stopped: set<string>) {
    forall n :: n in stopped <==> exists k: nat :: tier <= k && Graphs.InTier(tiers, n, k)
  }

  lemma SameKeys(programs: map<string, Program>)
    ensures DepsOf(programs).Keys == programs.Keys
  {
  }

  lemma InTiers(programs: map<string, Program>, tiers: seq<seq<string>>)
    requires Graphs.AreTiers(DepsOf(programs), tiers)
    ensures Plan(DepsOf(programs), tiers, true)
  {
  }

  lemma OneGroup(programs: map<string, Program>, names: seq<string>)
    requires forall n :: n in names <==> n in programs
    ensures Plan(DepsOf(programs), [names], false)
  {
  }

  lemma StopNothingYet(deps: Listing, tiers: seq<seq<string>>, ordered: bool)
    requires Plan(deps, tiers, ordered)
    ensures ShutDown(deps, tiers, |tiers|, {}, [], ordered)
  {
  }

  lemma ShutDownStep(deps: Listing, tiers: seq<seq<string>>, tier: nat, stopped: set<string>,
                     log: seq<StopEvent>, more: seq<StopEvent>, ordered: bool)
    requires tier < |tiers| && ShutDown(deps, tiers, tier + 1, stopped, log, ordered)
    requires StopsEach(more, Elements(tiers[tier]))
    ensures ShutDown(deps, tiers, tier, stopped + Elements(tiers[tier]), log + more, ordered)
  {
    hide StopsEach, DependentsFirst, Above, Graphs.TiersOf;
    StoppedGrows(deps, tiers, tier, stopped, log, ordered);
    StopsAppend(log, stopped, more, Elements(tiers[tier]));
    if ordered { DependentsStopped(deps, tiers, tier, stopped, log, more); }
  }

  lemma ShutDownDone(deps: Listing, tiers: seq<seq<string>>, stopped: set<string>, log: seq<StopEvent>, ordered: bool)
    requires ShutDown(deps, tiers, 0, stopped, log, ordered)
    ensures stopped == deps.Keys && StopsEach(log, stopped)
    ensures ordered ==> DependentsFirst(log, deps, stopped)
  {
    forall n | n in deps ensures n in stopped {
      if ordered {
        var k: nat :| Graphs.InTier(tiers, n, k);
      } else {
        assert Graphs.InTier(tiers, n, 0);
      }
    }
    forall n | n in stopped ensures n in deps {
      var k: nat :| Graphs.InTier(tiers, n, k);
      assert !ordered ==> n in Elements(tiers[0]);
    }
  }

  lemma StoppedGrows(deps: Listing, tiers: seq<seq<string>>, tier: nat, stopped: set<string>,
                     log: seq<StopEvent>, ordered: bool)
    requires tier < |tiers| && ShutDown(deps, tiers, tier + 1, stopped, log, ordered)
    ensures stopped !! Elements(tiers[tier]) && Elements(tiers[tier]) <= deps.Keys
    ensures Above(tiers, tier, stopped + Elements(tiers[tier]))
  {
    hide StopsEach, DependentsFirst;
    forall n | n in Elements(tiers[tier]) ensures n !in stopped && n in deps {
      assert Graphs.InTier(tiers, n, tier);
      if n in stopped {
        var k: nat :| tier + 1 <= k && Graphs.InTier(tiers, n, k);
        if ordered { Graphs.TierUnique(deps, tiers, n, tier, k); }
      }
    }
    forall n
      ensures n in stopped + Elements(tiers[tier]) <==> exists k: nat :: tier <= k && Graphs.InTier(tiers, n, k)
    {
      if n in Elements(tiers[tier]) {
        assert Graphs.InTier(tiers, n, tier);
      } else if k: nat :| tier <= k && Graphs.InTier(tiers, n, k) {
        assert tier + 1 <= k;
      }
    }
  }

  lemma DependentsStopped(deps: Listing, tiers: seq<seq<string>>, tier: nat, stopped: set<string>,
                          log: seq<StopEvent>, more: seq<StopEvent>)
    requires tier < |tiers| && Graphs.AreTiers(deps, tiers) && Above(tiers, tier + 1, stopped)
    requires StopsEach(log, stopped) && StopsEach(more, Elements(tiers[tier]))
    requires DependentsFirst(log, deps, stopped)
    ensures DependentsFirst(log + more, deps, stopped + Elements(tiers[tier]))
  {
    forall n, d | Edge(deps, n, d) && d in stopped + Elements(tiers[tier])
      ensures Before(log + more, Returned(n), Called(d))
    {
      BeforeAppend(log, more, Returned(n), Called(d));
      if d in Elements(tiers[tier]) {
        var j: nat :| Graphs.InTier(tiers, n, j);
        assert Graphs.InTier(tiers, d, tier);
        Graphs.TierOfDependency(deps, tiers, n, d, j, tier);
        assert n in stopped;
        assert Before(log, Called(n), Returned(n));
        assert Before(more, Called(d), Returned(d));
      }
    }
  }

  // ---------------------------------------------------------------- the objects of a tier

  /** Where the Stop calls of a tier have got to: call has the one of each program past its first half. */
  datatype Tier = Tier(names: set<string>, stuck: set<string>, lost: set<nat>, uncalled: set<string>,
                       landing: set<string>, waiting: set<string>, call: map<string, nat>)

  ghost predicate NoStarts(w: World) {
    forall k :: 0 <= k < |w.objs| ==> !StartPending(w.objs[k].calls)
  }

  ghost predicate Has(w: World, n: string) {
    n in w.current && w.current[n] < |w.objs|
  }

  function ObjAt(w: World, n: string): Obj
    requires Has(w, n)
  {
    w.objs[w.current[n]]
  }

  /** A stop past its first half; landed says whether it is past its second, gone whether its object is lost. */
  ghost predicate Underway(o: Obj, c: nat, landed: bool, gone: bool) {
    && c < |o.calls| && (if landed then o.calls[c].stage.StopWaiting? else o.calls[c].stage.StopMarked?)
    && (gone || Going(o, c))
  }

  ghost predicate OnItsWay(w: World, lost: set<nat>, n: string, c: nat, landed: bool) {
    Has(w, n) && Underway(ObjAt(w, n), c, landed, w.current[n] in lost)
  }

  ghost predicate RestsIn(w: World, k: nat) {
    k < |w.objs| && AtRest(w.objs[k])
  }

  /** A stop that returned left its program at rest, unless it gave up on it or the object is lost. */
  ghost predicate Ended(w: World, lost: set<nat>, n: string, stuck: set<string>) {
    Has(w, n) && (n in stuck || w.current[n] in lost || RestsIn(w, w.current[n]))
  }

  lemma EndedHasNoChild(w: World, lost: set<nat>, n: string, stuck: set<string>)
    requires Ended(w, lost, n, stuck) && n !in stuck && w.current[n] !in lost
    ensures !HasChild(ObjAt(w, n))
  {
    RestHasNoChild(ObjAt(w, n));
  }

  lemma EndedStays(w: World, v: World, lost: set<nat>, more: set<nat>, names: set<string>, stuck: set<string>)
    requires v.current == w.current && |v.objs| == |w.objs| && forall k: nat :: RestsIn(w, k) ==> RestsIn(v, k)
    requires lost <= more && forall n :: n in names ==> Ended(w, lost, n, stuck)
    ensures forall n :: n in names ==> Ended(v, more, n, stuck)
  {
    hide RestsIn;
  }

  ghost predicate TierOk(w: World, t: Tier) {
    && InvBut(w, t.lost) && NoStarts(w) && t.names <= w.current.Keys
    && t.uncalled !! t.landing !! t.waiting && t.uncalled + t.landing + t.waiting <= t.names
    && (forall n :: n in t.landing ==> n in t.call && OnItsWay(w, t.lost, n, t.call[n], false))
    && (forall n :: n in t.waiting ==> n in t.call && OnItsWay(w, t.lost, n, t.call[n], true))
    && (forall n :: n in t.names - t.uncalled - t.landing - t.waiting ==> Ended(w, t.lost, n, t.stuck))
  }

  lemma NoStartsStay(w: World, k: nat, act: Act)
    requires NoStarts(w) && k < |w.objs| && CanAct(w.objs[k], act)
    ensures NoStarts(OnSpec(w, k, act))
    ensures !act.StartRuns?
  {
    assert !StartPending(w.objs[k].calls);
    NoStartAdded(w.objs[k], act);
    hide StartPending, Next, NewEvents, Clears, CanAct;
  }

  /** A stop that begins between the cancel check and the restart is on an object given up for lost. */
  ghost predicate Expected(w: World, lost: set<nat>, k: nat, act: Act)
    requires k < |w.objs|
  {
    act.StopMarks? ==> k in lost || !InGap(w.objs[k].proc)
  }

  lemma ActKeepsInv(w: World, lost: set<nat>, k: nat, act: Act)
    requires InvBut(w, lost) && NoStarts(w) && k < |w.objs| && CanAct(w.objs[k], act) && Expected(w, lost, k, act)
    ensures InvBut(OnSpec(w, k, act), lost)
  {
    assert !StartPending(w.objs[k].calls);
    assert SlipsIn(w.objs[k], act) ==> k in lost;
    hide InvBut, CanAct, OnSpec, SlipsIn;
    InvButStep(w, lost, On(k, act));
    assert lost + {k} == lost || !SlipsIn(w.objs[k], act);
  }

  lemma UnderwayStays(o: Obj, c: nat, landed: bool, gone: bool, act: Act)
    requires Underway(o, c, landed, gone) && CanAct(o, act) && CallOf(act) != Some(c)
    ensures Underway(Next(o, act), c, landed, gone)
  {
    if !gone { GoingStep(o, c, act); }
    hide Going, NextProc;
  }

  lemma WayStays(w: World, lost: set<nat>, n: string, c: nat, landed: bool, k: nat, act: Act)
    requires OnItsWay(w, lost, n, c, landed) && k < |w.objs| && CanAct(w.objs[k], act)
    requires w.current[n] == k ==> CallOf(act) != Some(c)
    ensures OnItsWay(OnSpec(w, k, act), lost, n, c, landed)
  {
    hide Underway, CanAct, NewEvents, Clears, Next;
    if w.current[n] == k { UnderwayStays(w.objs[k], c, landed, k in lost, act); }
  }

  lemma RestsStay(w: World, j: nat, k: nat, act: Act)
    requires RestsIn(w, j) && k < |w.objs| && CanAct(w.objs[k], act)
    ensures RestsIn(OnSpec(w, k, act), j)
  {
    if j == k { RestStep(w.objs[k], act); }
    hide AtRest, CanAct, NewEvents, Clears, Next;
  }

  /** An act that is on none of the calls of the tier. */
  ghost predicate Elsewhere(w: World, t: Tier, k: nat, act: Act) {
    CallOf(act).Some? ==>
      forall n :: n in t.landing + t.waiting && Has(w, n) && n in t.call && w.current[n] == k ==> t.call[n] != act.call
  }

  lemma TierStays(w: World, t: Tier, k: nat, act: Act)
    requires TierOk(w, t) && k < |w.objs| && CanAct(w.objs[k], act) && Elsewhere(w, t, k, act)
    requires Expected(w, t.lost, k, act)
    ensures TierOk(OnSpec(w, k, act), t)
  {
    hide InvBut, CanAct, Next, NewEvents, Clears, RestsIn, NoStarts, OnItsWay, Expected;
    NoStartsStay(w, k, act);
    ActKeepsInv(w, t.lost, k, act);
    var w' := OnSpec(w, k, act);
    forall n | n in t.landing ensures OnItsWay(w', t.lost, n, t.call[n], false) {
      WayHas(w, t.lost, n, t.call[n], false);
      WayStays(w, t.lost, n, t.call[n], false, k, act);
    }
    forall n | n in t.waiting ensures OnItsWay(w', t.lost, n, t.call[n], true) {
      WayHas(w, t.lost, n, t.call[n], true);
      WayStays(w, t.lost, n, t.call[n], true, k, act);
    }
    forall n | n in t.names - t.uncalled - t.landing - t.waiting ensures Ended(w', t.lost, n, t.stuck) {
      if n !in t.stuck && w.current[n] !in t.lost { RestsStay(w, w.current[n], k, act); }
    }
  }

  lemma WayHas(w: World, lost: set<nat>, n: string, c: nat, landed: bool)
    requires OnItsWay(w, lost, n, c, landed)
    ensures Has(w, n)
  {
  }

  /** Giving an object up for lost. */
  lemma TierLoses(w: World, t: Tier, k: nat)
    requires TierOk(w, t)
    ensures TierOk(w, t.(lost := t.lost + {k}))
  {
    InvButMore(w, t.lost, k);
    hide InvBut, RestsIn, NoStarts, Going;
  }

  lemma InvButMore(w: World, lost: set<nat>, k: nat)
    requires InvBut(w, lost)
    ensures InvBut(w, lost + {k})
  {
    forall i | 0 <= i < |w.objs| ensures Fine(w, lost + {k}, i) {
      FineAt(w, lost, i);
      hide InvBut, Shape, Marks, Spare, ObjOk, Dropped;
    }
    hide Fine, Shape, Marks;
  }

  /** The tier but for n. */
  function Without(t: Tier, n: string): Tier {
    t.(names := t.names - {n}, uncalled := t.uncalled - {n}, landing := t.landing - {n}, waiting := t.waiting - {n})
  }

  lemma WithoutOk(w: World, t: Tier, n: string)
    requires TierOk(w, t) && n in t.names
    ensures TierOk(w, Without(t, n)) && Has(w, n) && !StartPending(ObjAt(w, n).calls)
    ensures w.current[n] in t.lost || ObjOk(ObjAt(w, n))
    ensures forall m :: m in w.current && m != n ==> w.current[m] != w.current[n]
  {
    hide OnItsWay, RestsIn, ObjOk, StartPending, Fine, Marks, Spare, Dropped;
    ShapeAt(w, n);
    InUse(w, n);
    FineAt(w, t.lost, w.current[n]);
  }

  /** An act on the object of n is elsewhere for the others. */
  lemma OthersElsewhere(w: World, t: Tier, n: string, act: Act)
    requires n in w.current && n !in t.names && t.landing + t.waiting <= t.names
    requires forall m :: m in w.current && m != n ==> w.current[m] != w.current[n]
    ensures Elsewhere(w, t, w.current[n], act)
  {
  }

  /** A program whose stop is where t says joins the others. */
  lemma Rejoins(w: World, t: Tier, n: string, call: map<string, nat>)
    requires TierOk(w, Without(t.(call := call), n))
    requires forall m :: m in call && m != n ==> m in t.call && t.call[m] == call[m]
    requires n in t.names && n in w.current && t.uncalled !! t.landing !! t.waiting
    requires t.uncalled + t.landing + t.waiting <= t.names
    requires n in t.landing ==> n in t.call && OnItsWay(w, t.lost, n, t.call[n], false)
    requires n in t.waiting ==> n in t.call && OnItsWay(w, t.lost, n, t.call[n], true)
    requires n !in t.uncalled + t.landing + t.waiting ==> Ended(w, t.lost, n, t.stuck)
    ensures TierOk(w, t)
  {
    hide InvBut, NoStarts, OnItsWay, Ended;
    var rest := Without(t.(call := call), n);
    forall m | m in t.landing && m != n ensures m in t.call && OnItsWay(w, t.lost, m, t.call[m], false) {
      assert m in rest.landing;
    }
    forall m | m in t.waiting && m != n ensures m in t.call && OnItsWay(w, t.lost, m, t.call[m], true) {
      assert m in rest.waiting;
    }
    forall m | m in t.names - t.uncalled - t.landing - t.waiting && m != n ensures Ended(w, t.lost, m, t.stuck) {
      assert m in rest.names - rest.uncalled - rest.landing - rest.waiting;
    }
  }

  /** An act of n, while the others are as they were. */
  lemma ActBeside(w: World, rest: Tier, n: string, act: Act)
    requires TierOk(w, rest) && n !in rest.names && Has(w, n) && CanAct(ObjAt(w, n), act)
    requires Expected(w, rest.lost, w.current[n], act)
    requires forall m :: m in w.current && m != n ==> w.current[m] != w.current[n]
    ensures TierOk(OnSpec(w, w.current[n], act), rest)
    ensures Has(OnSpec(w, w.current[n], act), n) && OnSpec(w, w.current[n], act).current == w.current
    ensures ObjAt(OnSpec(w, w.current[n], act), n) == Next(ObjAt(w, n), act)
  {
    RestWithin(w, rest);
    OthersElsewhere(w, rest, n, act);
    hide InvBut, TierOk, CanAct, Next, NewEvents, Clears, Expected;
    TierStays(w, rest, w.current[n], act);
  }

  lemma RestWithin(w: World, t: Tier)
    requires TierOk(w, t)
    ensures t.uncalled + t.landing + t.waiting <= t.names <= w.current.Keys && t.uncalled !! t.landing !! t.waiting
    ensures InvBut(w, t.lost) && NoStarts(w)
  {
    hide InvBut, NoStarts, OnItsWay, Ended;
  }

  lemma NotWithin(t: Tier, n: string)
    ensures n !in Without(t, n).names && Without(t, n).lost == t.lost
  {
  }

  /** A call of Stop and its first half. */
  lemma CallGoes(o: Obj, gone: bool)
    requires gone || (ObjOk(o) && !InGap(o.proc))
    requires !StartPending(o.calls)
    ensures CanAct(o, CalledToStop) && Next(o, CalledToStop).proc == o.proc
    ensures CanAct(Next(o, CalledToStop), StopMarks(|o.calls|))
    ensures Underway(Next(Next(o, CalledToStop), StopMarks(|o.calls|)), |o.calls|, false, gone)
  {
    var o1 := Next(o, CalledToStop);
    assert o1.calls[|o.calls|].stage == StopCalled;
    if !gone {
      assert !SlipsIn(o, CalledToStop);
      ActKeeps(o, CalledToStop);
      NoStartAdded(o, CalledToStop);
      hide ObjOk, StartPending, InGap;
      GoingStarts(o1, |o.calls|);
    }
  }

  function CalledTier(t: Tier, n: string, c: nat): Tier {
    t.(uncalled := t.uncalled - {n}, landing := t.landing + {n}, call := t.call[n := c])
  }

  lemma CallExpected(w: World, lost: set<nat>, n: string, c: nat)
    requires Has(w, n) && (w.current[n] in lost || !InGap(ObjAt(w, n).proc))
    ensures Expected(w, lost, w.current[n], CalledToStop) && Expected(w, lost, w.current[n], StopMarks(c))
  {
  }

  lemma TierCalled(w: World, t: Tier, n: string, w1: World, w2: World)
    requires TierOk(w, t) && n in t.uncalled && Has(w, n) && (w.current[n] in t.lost || !InGap(ObjAt(w, n).proc))
    requires CanAct(ObjAt(w, n), CalledToStop) && w1 == OnSpec(w, w.current[n], CalledToStop) && Has(w1, n)
    requires CanAct(ObjAt(w1, n), StopMarks(|ObjAt(w, n).calls|))
    requires w2 == OnSpec(w1, w1.current[n], StopMarks(|ObjAt(w, n).calls|))
    ensures TierOk(w2, CalledTier(t, n, |ObjAt(w, n).calls|))
  {
    var c := |ObjAt(w, n).calls|;
    hide *;
    RestWithin(w, t);
    WithoutOk(w, t, n);
    NotWithin(t, n);
    CallGoes(ObjAt(w, n), w.current[n] in t.lost);
    CallExpected(w, t.lost, n, c);
    ActBeside(w, Without(t, n), n, CalledToStop);
    CallExpected(w1, t.lost, n, c);
    ActBeside(w1, Without(t, n), n, StopMarks(c));
    CalledJoins(w2, t, n, c);
  }

  lemma IsOnItsWay(w: World, lost: set<nat>, n: string, c: nat, landed: bool)
    requires Has(w, n) && Underway(ObjAt(w, n), c, landed, w.current[n] in lost)
    ensures n in w.current && OnItsWay(w, lost, n, c, landed)
  {
    hide Underway;
  }

  lemma IsEnded(w: World, lost: set<nat>, n: string, stuck: set<string>)
    requires Has(w, n) && (n in stuck || w.current[n] in lost || AtRest(ObjAt(w, n)))
    ensures n in w.current && Ended(w, lost, n, stuck)
  {
    hide AtRest;
  }

  /** Wherever the stop of n has got to, the others are where they were. */
  lemma SameWithout(t: Tier, n: string, c: nat, waits: bool)
    ensures Without(CalledTier(t, n, c).(call := t.call), n) == Without(t, n)
    ensures Without(LandedTier(t, n, waits).(call := t.call), n) == Without(t, n)
    ensures Without(ReturnedTier(t, n).(call := t.call), n) == Without(t, n)
  {
  }

  lemma CalledJoins(w: World, t: Tier, n: string, c: nat)
    requires TierOk(w, Without(t, n)) && n in t.uncalled && n in w.current
    requires t.uncalled + t.landing + t.waiting <= t.names && t.uncalled !! t.landing !! t.waiting
    requires Has(w, n) && Underway(ObjAt(w, n), c, false, w.current[n] in t.lost)
    ensures TierOk(w, CalledTier(t, n, c))
  {
    hide *;
    IsOnItsWay(w, t.lost, n, c, false);
    SameWithout(t, n, c, false);
    TierMoves(t, n, c, false);
    Rejoins(w, CalledTier(t, n, c), n, t.call);
  }

  function LandedTier(t: Tier, n: string, waits: bool): Tier {
    t.(landing := t.landing - {n}, waiting := if waits then t.waiting + {n} else t.waiting)
  }

  /** A landing on a stopped state ends the stop, at rest; any other goes on to wait. */
  lemma LandingGoes(o: Obj, c: nat, gone: bool)
    requires Underway(o, c, false, gone) && (gone || ObjOk(o))
    ensures CanAct(o, StopLands(c))
    ensures var q := Next(o, StopLands(c));
      if ReadsStopped(o.calls[c].stage.seen) then gone || AtRest(q) else Underway(q, c, true, gone)
  {
    if !gone {
      if ReadsStopped(o.calls[c].stage.seen) {
        assert LandsStopped(o.calls[c]);
        NothingPendingRests(o);
        RestStep(o, StopLands(c));
      } else {
        GoingLands(o, c);
      }
    }
    hide Going, AtRest, ObjOk, NextProc;
  }

  lemma TierLanded(w: World, t: Tier, n: string, c: nat, w1: World)
    requires TierOk(w, t) && n in t.landing && Has(w, n) && n in t.call && t.call[n] == c < |ObjAt(w, n).calls|
    requires CanAct(ObjAt(w, n), StopLands(c)) && ObjAt(w, n).calls[c].stage.StopMarked?
    requires w1 == OnSpec(w, w.current[n], StopLands(c))
    ensures TierOk(w1, LandedTier(t, n, !ReadsStopped(ObjAt(w, n).calls[c].stage.seen)))
  {
    var gone := w.current[n] in t.lost;
    GoesOn(w, t, n);
    assert Expected(w, t.lost, w.current[n], StopLands(c));
    hide *;
    RestWithin(w, t);
    WithoutOk(w, t, n);
    NotWithin(t, n);
    LandingGoes(ObjAt(w, n), c, gone);
    ActBeside(w, Without(t, n), n, StopLands(c));
    LandedJoins(w1, t, n, c, !ReadsStopped(ObjAt(w, n).calls[c].stage.seen));
  }

  lemma GoesOn(w: World, t: Tier, n: string)
    requires TierOk(w, t) && n in t.landing + t.waiting
    ensures n in t.names && Has(w, n) && n in t.call && t.call[n] < |ObjAt(w, n).calls|
    ensures Underway(ObjAt(w, n), t.call[n], n in t.waiting, w.current[n] in t.lost)
    ensures n in t.landing ==> ObjAt(w, n).calls[t.call[n]].stage.StopMarked?
    ensures n in t.landing ==> CanAct(ObjAt(w, n), StopLands(t.call[n]))
    ensures n in t.waiting ==> ObjAt(w, n).calls[t.call[n]].stage.StopWaiting?
  {
    WithinTier(w, t, n);
    hide TierOk, InvBut, NoStarts, Ended, Going;
  }

  lemma WithinTier(w: World, t: Tier, n: string)
    requires TierOk(w, t) && n in t.landing + t.waiting
    ensures n in t.names && n in t.call && OnItsWay(w, t.lost, n, t.call[n], n in t.waiting)
    ensures n in t.landing <==> n !in t.waiting
  {
    hide InvBut, NoStarts, Ended, OnItsWay;
  }

  lemma LandedJoins(w: World, t: Tier, n: string, c: nat, waits: bool)
    requires TierOk(w, Without(t, n)) && n in t.landing && n in t.call && t.call[n] == c && Has(w, n)
    requires t.uncalled + t.landing + t.waiting <= t.names && t.uncalled !! t.landing !! t.waiting
    requires waits ==> Underway(ObjAt(w, n), c, true, w.current[n] in t.lost)
    requires !waits ==> w.current[n] in t.lost || AtRest(ObjAt(w, n))
    ensures TierOk(w, LandedTier(t, n, waits))
  {
    hide *;
    if waits { IsOnItsWay(w, t.lost, n, c, true); } else { IsEnded(w, t.lost, n, t.stuck); }
    SameWithout(t, n, 0, waits);
    TierMoves(t, n, 0, waits);
    Rejoins(w, LandedTier(t, n, waits), n, t.call);
  }

  function ReturnedTier(t: Tier, n: string): Tier {
    t.(waiting := t.waiting - {n})
  }

  lemma ReturnRests(o: Obj, c: nat)
    requires Underway(o, c, true, false) && ObjOk(o) && CanAct(o, StopReturns(c, false))
    ensures AtRest(Next(o, StopReturns(c, false)))
  {
    assert MonitorDone(o.proc, o.calls[c].stage.awaited);
    GoingEnds(o, c);
    RestStep(o, StopReturns(c, false));
  }

  lemma TierReturned(w: World, t: Tier, n: string, gaveUp: bool, w1: World)
    requires TierOk(w, t) && n in t.waiting && Has(w, n) && n in t.call && (gaveUp ==> n in t.stuck)
    requires CanAct(ObjAt(w, n), StopReturns(t.call[n], gaveUp))
    requires w1 == OnSpec(w, w.current[n], StopReturns(t.call[n], gaveUp))
    ensures TierOk(w1, ReturnedTier(t, n))
  {
    var c := t.call[n];
    GoesOn(w, t, n);
    assert Expected(w, t.lost, w.current[n], StopReturns(c, gaveUp));
    hide *;
    RestWithin(w, t);
    WithoutOk(w, t, n);
    NotWithin(t, n);
    if !gaveUp && w.current[n] !in t.lost { ReturnRests(ObjAt(w, n), c); }
    ActBeside(w, Without(t, n), n, StopReturns(c, gaveUp));
    ReturnedJoins(w1, t, n);
  }

  lemma ReturnedJoins(w: World, t: Tier, n: string)
    requires TierOk(w, Without(t, n)) && n in t.waiting && Has(w, n)
    requires t.uncalled + t.landing + t.waiting <= t.names && t.uncalled !! t.landing !! t.waiting
    requires n in t.stuck || w.current[n] in t.lost || AtRest(ObjAt(w, n))
    ensures TierOk(w, ReturnedTier(t, n))
  {
    hide *;
    IsEnded(w, t.lost, n, t.stuck);
    SameWithout(t, n, 0, false);
    TierMoves(t, n, 0, false);
    Rejoins(w, ReturnedTier(t, n), n, t.call);
  }

  lemma TierBegins(w: World, names: set<string>, stuck: set<string>, lost: set<nat>)
    requires InvBut(w, lost) && NoStarts(w) && names <= w.current.Keys
    ensures TierOk(w, Tier(names, stuck, lost, names, {}, {}, map[]))
  {
    hide InvBut, NoStarts;
  }

  lemma TierEnds(w: World, t: Tier)
    requires TierOk(w, t) && t.uncalled == t.landing == t.waiting == {}
    ensures NoStarts(w) && forall n :: n in t.names ==> Ended(w, t.lost, n, t.stuck)
  {
    hide InvBut, NoStarts, Ended;
    assert t.names - t.uncalled - t.landing - t.waiting == t.names;
  }

  /** The tier after each kind of move, spelt out. */
  lemma TierMoves(t: Tier, n: string, c: nat, waits: bool)
    ensures CalledTier(t, n, c) ==
            Tier(t.names, t.stuck, t.lost, t.uncalled - {n}, t.landing + {n}, t.waiting, t.call[n := c])
    ensures LandedTier(t, n, waits) ==
            Tier(t.names, t.stuck, t.lost, t.uncalled, t.landing - {n},
                 if waits then t.waiting + {n} else t.waiting, t.call)
    ensures ReturnedTier(t, n) ==
            Tier(t.names, t.stuck, t.lost, t.uncalled, t.landing, t.waiting - {n}, t.call)
  {
  }

  // ---------------------------------------------------------------- the run a stop waits for

  /** What can happen next to a run that is not over. */
  function Ending(o: Obj, r: nat, status: Status, long: bool, launched: bool): Act
    requires r < |o.proc.runs|
  {
    match o.proc.runs[r].phase
    case Up => ChildExits(r, status, long)
    case Reaped(_, _) => GivesVerdict(r)
    case Waiting(_) => if o.proc.runs[r].Wakeable() then Wakes(r) else Abandons(r)
    case Restarting => Restarts(r, launched)
    case Over => CalledToStop
  }

  function PhasesLeft(phase: Phase): nat {
    match phase
    case Up => 4
    case Reaped(_, _) => 3
    case Waiting(_) => 2
    case Restarting => 1
    case Over => 0
  }

  /** The act is possible, is on no call, and brings the run nearer to its end. */
  predicate Helps(o: Obj, r: nat, act: Act) {
    && CanAct(o, act) && CallOf(act).None? && !act.CalledToStop? && r < |o.proc.runs| <= |Next(o, act).proc.runs|
    && PhasesLeft(Next(o, act).proc.runs[r].phase) < PhasesLeft(o.proc.runs[r].phase)
  }

  lemma EndingUp(o: Obj, r: nat, status: Status, long: bool)
    requires r < |o.proc.runs| && o.proc.runs[r].phase.Up?
    ensures Helps(o, r, ChildExits(r, status, long))
  {
  }

  lemma EndingReaped(o: Obj, r: nat)
    requires r < |o.proc.runs| && o.proc.runs[r].phase.Reaped?
    ensures Helps(o, r, GivesVerdict(r))
  {
  }

  lemma EndingWaiting(o: Obj, r: nat)
    requires r < |o.proc.runs| && o.proc.runs[r].phase.Waiting?
    ensures Helps(o, r, if o.proc.runs[r].Wakeable() then Wakes(r) else Abandons(r))
  {
  }

  lemma EndingRestarting(o: Obj, r: nat, launched: bool)
    requires r < |o.proc.runs| && o.proc.runs[r].phase.Restarting?
    ensures Helps(o, r, Restarts(r, launched))
  {
  }

  lemma EndingHelps(o: Obj, r: nat, status: Status, long: bool, launched: bool)
    requires r < |o.proc.runs| && !o.proc.runs[r].phase.Over?
    ensures Helps(o, r, Ending(o, r, status, long, launched))
  {
    hide Helps;
    match o.proc.runs[r].phase
    case Up => EndingUp(o, r, status, long);
    case Reaped(_, _) => EndingReaped(o, r);
    case Waiting(_) => EndingWaiting(o, r);
    case Restarting => EndingRestarting(o, r, launched);
  }

  lemma ReturnsWhenDone(o: Obj, c: nat)
    requires c < |o.calls| && o.calls[c].stage.StopWaiting?
    requires var awaited := o.calls[c].stage.awaited;
      awaited.Some? && awaited.value < |o.proc.runs| ==> o.proc.runs[awaited.value].phase.Over?
    ensures CanAct(o, StopReturns(c, false))
  {
  }

  /** A program has at most one child, whatever became of its object. */
  lemma OneAtMost(w: World, lost: set<nat>, k: nat, i: nat, j: nat)
    requires InvBut(w, lost) && IsChild(w, k, i) && IsChild(w, k, j)
    ensures i == j
  {
    FineAt(w, lost, k);
    hide InvBut, Fine;
  }
}
