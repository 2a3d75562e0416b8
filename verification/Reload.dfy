/** internal/server/reload.go: what a reload finds changed, and what it does to the maps of the server. */
module Reloading {
  import opened Common
  import opened Dependencies
  import Graphs = DependencyGraph
  import opened Configuration
  import opened Blocking
  import opened Lifecycle
  import opened Objects
  import opened Supervisor

  /** Why dependenciesSatisfied says no. */
  datatype Unmet = Unmet(dep: string, condition: Condition)

  /** The reason a program is not started names a dependency that is not satisfied. */
  ghost predicate Blames(s: Snapshot, name: string, unmet: Unmet) {
    exists dep :: dep in DependenciesOf(s, name) && !Satisfied(s, dep) && unmet == Unmet(dep.name, dep.condition)
  }

  /** What diffPrograms reports. */
  ghost predicate AreChanges(current: map<string, Program>, updated: map<string, Program>,
                             added: seq<string>, removed: seq<string>, changed: seq<string>) {
    && Sorted(added) && Sorted(removed) && Sorted(changed)
    && Elements(added) == updated.Keys - current.Keys
    && Elements(removed) == current.Keys - updated.Keys
    && Elements(changed) == set n | n in updated && n in current && current[n] != updated[n]
  }

  lemma ChangesCover(current: map<string, Program>, updated: map<string, Program>,
                     added: seq<string>, removed: seq<string>, changed: seq<string>)
    requires AreChanges(current, updated, added, removed, changed)
    ensures current.Keys - Elements(removed) + Elements(changed) + Elements(added) == updated.Keys
    ensures forall n :: n in added ==> n in updated && n !in current
    ensures forall n :: n in changed ==> n in updated && n in current
    ensures forall n :: n in updated && n !in added && n !in changed ==>
                          n in current && current[n] == updated[n] && n !in removed
  {
    forall n | n in added ensures n in updated && n !in current { assert n in Elements(added); }
    forall n | n in changed ensures n in updated && n in current { assert n in Elements(changed); }
    forall n | n in updated && n !in added && n !in changed
      ensures n in current && current[n] == updated[n] && n !in removed
    {
      assert n !in Elements(added) && n !in Elements(changed);
      assert n !in Elements(removed);
    }
  }

  method DiffPrograms(current: map<string, Program>, updated: map<string, Program>)
    returns (added: seq<string>, removed: seq<string>, changed: seq<string>)
    ensures AreChanges(current, updated, added, removed, changed)
  {
    added, removed, changed := [], [], [];
    var left := updated.Keys;
    while left != {}
      invariant left <= updated.Keys && NoDup(added) && NoDup(changed)
      invariant forall n :: n in added <==> n in updated && n !in left && n !in current
      invariant forall n :: n in changed <==> n in updated && n !in left && n in current && current[n] != updated[n]
    {
      var name :| name in left;
      if name !in current {
        added := added + [name];
      } else if current[name] != updated[name] {
        changed := changed + [name];
      }
      left := left - {name};
    }
    left := current.Keys;
    while left != {}
      invariant left <= current.Keys && NoDup(removed)
      invariant forall n :: n in removed <==> n in current && n !in left && n !in updated
    {
      var name :| name in left;
      if name !in updated { removed := removed + [name]; }
      left := left - {name};
    }
    added := SortStrings(added);
    removed := SortStrings(removed);
    changed := SortStrings(changed);
  }

  method BuildDependencyGraph(programs: map<string, Program>) returns (graph: Graphs.Graph)
    ensures fresh(graph) && Graphs.Mirrored(graph.nodes)
    ensures Graphs.DepsOf(graph.nodes) == DepsOf(programs)
  {
    hide Graphs.Mirrored;
    graph := new Graphs.Graph();
    var left := programs.Keys;
    while left != {}
      invariant fresh(graph) && Graphs.Mirrored(graph.nodes)
      invariant left <= programs.Keys
      invariant Graphs.DepsOf(graph.nodes) == DepsOf(programs) - left
    {
      var name :| name in left;
      graph.AddNode(name, NamesOf(programs[name].dependsOn));
      left := left - {name};
    }
    assert DepsOf(programs) - {} == DepsOf(programs);
  }

  /** How far a reload gets before it has to wait. */
  datatype ReloadPlan =
    | Refused
    | NothingToDo
    | Replacing(previous: map<string, Desired>, added: seq<string>, removed: seq<string>, changed: seq<string>)

  function StoppedAll(desired: map<string, Desired>, names: seq<string>): map<string, Desired> {
    map n | n in desired :: if n in names then WantStopped else desired[n]
  }

  lemma StoppedNone(desired: map<string, Desired>, names: seq<string>)
    ensures StoppedAll(desired, names[..0]) == desired
  {
  }

  /** The programs whose reported reason a stop of names forgets. */
  function Forgotten(known: set<string>, names: seq<string>): set<string> {
    known * Elements(names)
  }

  lemma ForgottenNone(reasons: map<string, Unmet>, known: set<string>, names: seq<string>)
    ensures reasons - Forgotten(known, names[..0]) == reasons
  {
  }

  lemma ForgottenStep(reasons: map<string, Unmet>, known: set<string>, names: seq<string>, i: nat)
    requires i < |names|
    ensures var before := reasons - Forgotten(known, names[..i]);
      reasons - Forgotten(known, names[..i + 1]) == if names[i] in known then before - {names[i]} else before
  {
    OneMore(names, i);
  }

  lemma StoppedStep(desired: map<string, Desired>, names: seq<string>, i: nat)
    requires i < |names|
    ensures var before := StoppedAll(desired, names[..i]);
      && before.Keys == desired.Keys
      && StoppedAll(desired, names[..i + 1]) == if names[i] in desired then before[names[i] := WantStopped] else before
  {
  }

  lemma EmptyChanges(current: map<string, Program>, updated: map<string, Program>,
                     added: seq<string>, removed: seq<string>, changed: seq<string>)
    requires AreChanges(current, updated, added, removed, changed)
    ensures added == [] && removed == [] && changed == [] <==> current == updated
  {
    EmptyElements(added);
    EmptyElements(removed);
    EmptyElements(changed);
  }

  lemma EmptyElements(s: seq<string>)
    ensures Elements(s) == {} <==> s == []
  {
    if s != [] { assert s[0] in Elements(s); }
  }

  /** after has new slots from base on for names, in order, and before's for the rest. */
  ghost predicate Slotted(before: map<string, nat>, after: map<string, nat>, base: nat, names: seq<string>) {
    && after.Keys == before.Keys + Elements(names)
    && (forall i :: 0 <= i < |names| ==> after[names[i]] == base + i)
    && (forall n :: n in before && n !in names ==> after[n] == before[n])
  }

  lemma SlottedNone(slots: map<string, nat>, base: nat, names: seq<string>)
    ensures Slotted(slots, slots, base, names[..0])
  {
  }

  lemma SlottedStep(before: map<string, nat>, after: map<string, nat>, base: nat, names: seq<string>, i: nat)
    requires NoDup(names) && i < |names| && Slotted(before, after, base, names[..i])
    ensures Slotted(before, after[names[i] := base + i], base, names[..i + 1])
  {
    OneMore(names, i);
    assert forall j :: 0 <= j < i ==> names[..i][j] == names[j] && names[j] != names[i];
  }

  /** Two lists in turn are one list. */
  lemma SlottedTwice(s0: map<string, nat>, s1: map<string, nat>, s2: map<string, nat>, base: nat,
                     a: seq<string>, b: seq<string>)
    requires NoDup(a + b) && Slotted(s0, s1, base, a) && Slotted(s1, s2, base + |a|, b)
    ensures Slotted(s0, s2, base, a + b)
  {
    forall i | 0 <= i < |a + b| ensures (a + b)[i] in s2 && s2[(a + b)[i]] == base + i {
      if i < |a| {
        assert a[i] in Elements(a) && a[i] !in b by {
          forall j | 0 <= j < |b| ensures b[j] != a[i] { assert (a + b)[i] == a[i] && (a + b)[|a| + j] == b[j]; }
        }
      } else {
        assert b[i - |a|] in Elements(b);
      }
    }
  }

  lemma IndexOnce(s: seq<string>, i: nat)
    requires NoDup(s) && i < |s|
    ensures FirstIndex(s, s[i]) == i
  {
    assert s[i] in s;
    var j := FirstIndex(s, s[i]);
  }

  lemma MinusStep<T>(m: map<string, T>, gone: set<string>, name: string)
    ensures m - gone - {name} == m - (gone + {name})
  {
  }

  lemma NothingYet(list: seq<string>)
    ensures Elements(list[..0]) == {}
  {
  }

  lemma OneMore(list: seq<string>, i: nat)
    requires i < |list|
    ensures list[i] in list && Elements(list[..i + 1]) == Elements(list[..i]) + {list[i]}
  {
  }

  /** after has the wishes for names, and before's for the rest. */
  ghost predicate Wishes(before: map<string, Desired>, after: map<string, Desired>, names: seq<string>,
                         wishes: map<string, Desired>) {
    && after.Keys == before.Keys + Elements(names)
    && (forall n :: n in names ==> n in wishes && n in after && after[n] == wishes[n])
    && (forall n :: n in before && n !in names ==> after[n] == before[n])
  }

  lemma WishesNone(desired: map<string, Desired>, names: seq<string>, wishes: map<string, Desired>)
    ensures Wishes(desired, desired, names[..0], wishes)
  {
  }

  lemma WishesStep(before: map<string, Desired>, after: map<string, Desired>, names: seq<string>, i: nat,
                   wishes: map<string, Desired>)
    requires i < |names| && names[i] in wishes && Wishes(before, after, names[..i], wishes)
    ensures Wishes(before, after[names[i] := wishes[names[i]]], names[..i + 1], wishes)
  {
    OneMore(names, i);
    assert names[..i + 1] == names[..i] + [names[i]];
  }

  function FirstWishes(programs: map<string, Program>): (wishes: map<string, Desired>)
    ensures wishes.Keys == programs.Keys
  {
    map n | n in programs :: FirstWish(programs[n])
  }

  lemma AllNew(w: World, programs: map<string, Program>, names: seq<string>)
    requires w.programs == programs && w.busy == {} && w.history == [] && |w.objs| == |names|
    requires w.current.Keys == w.desired.Keys == programs.Keys
    requires forall k :: 0 <= k < |names| ==>
      && names[k] in programs && names[k] in w.current && w.current[names[k]] == k
      && w.objs[k] == NewObj(names[k], programs[names[k]])
    requires forall n :: n in programs ==> w.current[n] < |names| && names[w.current[n]] == n
    requires forall n :: n in programs ==> w.desired[n] == FirstWish(programs[n])
    ensures IsInitial(w, programs)
  {
  }

  // ---------------------------------------------------------------- the parts make the swap

  /** The changed and the added programs are those that get a new object. */
  lemma MadeByReload(w: World, programs: map<string, Program>, previous: map<string, Desired>,
                     added: seq<string>, removed: seq<string>, changed: seq<string>)
    requires Shape(w) && AreChanges(w.programs, programs, added, removed, changed)
    requires forall n :: n in changed ==> n in previous
    ensures CanSwap(w, programs, previous, changed + added)
    ensures NoDup(changed) && NoDup(added) && forall n :: n in changed || n in added ==> n in programs
    ensures forall n :: n in changed + added && n in w.programs ==> n in changed
    ensures forall n :: n in added ==> n !in w.programs
    ensures forall n :: n in changed ==> n in w.programs
    ensures forall n :: n in removed <==> n in w.programs && n !in programs
  {
    SortedOnce(changed);
    SortedOnce(added);
    forall n ensures n in changed <==> n in programs && n in w.programs && w.programs[n] != programs[n] {
      assert n in changed <==> n in Elements(changed);
    }
    forall n ensures n in added <==> n in programs && n !in w.programs { assert n in added <==> n in Elements(added); }
    forall n ensures n in removed <==> n in w.programs && n !in programs {
      assert n in removed <==> n in Elements(removed);
    }
    hide AreChanges, NoDup, Sorted;
    Disjoint(changed, added);
  }

  lemma Disjoint(a: seq<string>, b: seq<string>)
    requires NoDup(a) && NoDup(b) && forall n :: n in a ==> n !in b
    ensures NoDup(a + b)
  {
    NoDupAppend(a, b);
  }

  lemma {:induction false} NotBelowItself(a: string)
    ensures !Below(a, a)
  {
    if a != [] { NotBelowItself(a[1..]); }
  }

  lemma SortedOnce(s: seq<string>)
    requires Sorted(s)
    ensures NoDup(s)
  {
    forall i, j | 0 <= i < j < |s| ensures s[i] != s[j] { NotBelowItself(s[i]); }
  }

  lemma SlotSwapped(w: World, programs: map<string, Program>, previous: map<string, Desired>, made: seq<string>,
                    gone: set<string>, s3: map<string, nat>, n: string)
    requires CanSwap(w, programs, previous, made) && n in programs && n !in gone
    requires NoDup(made) && Slotted(w.current - gone, s3, |w.objs|, made)
    ensures (n in made || n in w.current) && n in s3 && s3[n] == NewSlot(w, made, n)
  {
    OldOrNew(w, programs, previous, made, n);
    if n in made {
      var i :| 0 <= i < |made| && made[i] == n;
      IndexOnce(made, i);
      assert made[i] in Elements(made);
      hide FirstIndex, CanSwap, NoDup;
    } else {
      hide FirstIndex, CanSwap, NoDup;
      assert n in w.current - gone;
    }
  }

  lemma SlotsSwapped(w: World, programs: map<string, Program>, previous: map<string, Desired>,
                     added: seq<string>, removed: seq<string>, changed: seq<string>,
                     s1: map<string, nat>, s2: map<string, nat>, s3: map<string, nat>)
    requires CanSwap(w, programs, previous, changed + added)
    requires forall n :: n in removed <==> n in w.programs && n !in programs
    requires s1 == w.current - Elements(removed)
    requires Slotted(s1, s2, |w.objs|, changed) && Slotted(s2, s3, |w.objs| + |changed|, added)
    ensures s3 == SwapSpec(w, programs, previous, changed + added).current
  {
    var made := changed + added;
    MadeOnceHere(w, programs, previous, made);
    SlottedTwice(s1, s2, s3, |w.objs|, changed, added);
    KeysMatch(w, programs, previous, made, removed, s3);
    hide CanSwap, NewSlot, NoDup, Slotted;
    SwapSlots(w, programs, previous, made);
    forall n | n in programs ensures n in s3 && s3[n] == NewSlot(w, made, n) {
      SlotSwapped(w, programs, previous, made, Elements(removed), s3, n);
    }
  }

  lemma KeysMatch(w: World, programs: map<string, Program>, previous: map<string, Desired>, made: seq<string>,
                  removed: seq<string>, s3: map<string, nat>)
    requires CanSwap(w, programs, previous, made)
    requires forall n :: n in removed <==> n in w.programs && n !in programs
    requires Slotted(w.current - Elements(removed), s3, |w.objs|, made)
    ensures forall n :: n in s3 <==> n in programs
    ensures forall n :: n in programs ==> n !in Elements(removed)
  {
    MadeOnceHere(w, programs, previous, made);
    forall n ensures n in s3 <==> n in programs {
      assert n in made <==> n in Elements(made);
      if n in programs { OldOrNew(w, programs, previous, made, n); }
    }
  }

  lemma MadeOnceHere(w: World, programs: map<string, Program>, previous: map<string, Desired>, made: seq<string>)
    requires CanSwap(w, programs, previous, made)
    ensures NoDup(made) && forall n :: n in made ==> n in programs
  {
  }

  lemma SwapSlots(w: World, programs: map<string, Program>, previous: map<string, Desired>, made: seq<string>)
    requires CanSwap(w, programs, previous, made)
    ensures forall n :: n in programs ==> n in made || n in w.current
    ensures SwapSpec(w, programs, previous, made).current == map n | n in programs :: NewSlot(w, made, n)
  {
    forall n | n in programs ensures n in made || n in w.current { OldOrNew(w, programs, previous, made, n); }
    hide CanSwap, NewSlot;
  }

  lemma WishSwapped(w: World, programs: map<string, Program>, previous: map<string, Desired>,
                    added: seq<string>, removed: seq<string>, changed: seq<string>,
                    d1: map<string, Desired>, d2: map<string, Desired>, d3: map<string, Desired>, n: string)
    requires CanSwap(w, programs, previous, changed + added)
    requires forall n :: n in removed <==> n in w.programs && n !in programs
    requires forall n :: n in added ==> n !in w.programs
    requires forall n :: n in changed ==> n in w.programs
    requires d1 == w.desired - Elements(removed)
    requires Wishes(d1, d2, changed, previous) && Wishes(d2, d3, added, FirstWishes(programs))
    ensures n in d3 <==> n in programs
    ensures n in programs ==>
              && (n in changed + added <==> n in changed || n in added)
              && (n !in w.programs ==> d3[n] == FirstWish(programs[n]))
              && (n in w.programs && n in changed + added ==> n in previous && d3[n] == previous[n])
              && (n in w.programs && n !in changed + added ==> n in w.desired && d3[n] == w.desired[n])
  {
    assert (n in changed <==> n in Elements(changed)) && (n in added <==> n in Elements(added));
    assert n in removed <==> n in Elements(removed);
    MadeOnceHere(w, programs, previous, changed + added);
    if n in programs { OldOrNew(w, programs, previous, changed + added, n); }
    assert w.current.Keys == w.desired.Keys == w.programs.Keys;
    hide CanSwap, NoDup;
  }

  lemma WishesSwapped(w: World, programs: map<string, Program>, previous: map<string, Desired>,
                      added: seq<string>, removed: seq<string>, changed: seq<string>,
                      d1: map<string, Desired>, d2: map<string, Desired>, d3: map<string, Desired>)
    requires CanSwap(w, programs, previous, changed + added)
    requires forall n :: n in removed <==> n in w.programs && n !in programs
    requires forall n :: n in added ==> n !in w.programs
    requires forall n :: n in changed ==> n in w.programs
    requires d1 == w.desired - Elements(removed)
    requires Wishes(d1, d2, changed, previous) && Wishes(d2, d3, added, FirstWishes(programs))
    ensures d3 == SwapSpec(w, programs, previous, changed + added).desired
  {
    hide *;
    forall n
      ensures n in d3 <==> n in SwapSpec(w, programs, previous, changed + added).desired
      ensures n in d3 ==> d3[n] == SwapSpec(w, programs, previous, changed + added).desired[n]
    {
      WishSwapped(w, programs, previous, added, removed, changed, d1, d2, d3, n);
      SwapWish(w, programs, previous, changed + added, n);
    }
  }

  lemma SwapWish(w: World, programs: map<string, Program>, previous: map<string, Desired>, made: seq<string>, n: string)
    requires CanSwap(w, programs, previous, made)
    ensures var d := SwapSpec(w, programs, previous, made).desired;
      && (n in d <==> n in programs)
      && (n in programs ==>
            && (n !in w.programs ==> d[n] == FirstWish(programs[n]))
            && (n in w.programs && n in made ==> n in previous && d[n] == previous[n])
            && (n in w.programs && n !in made ==> n in w.desired && d[n] == w.desired[n]))
  {
    hide NoDup, NewSlot;
  }

  /** What a reload does to the program n. */
  ghost predicate Carried(w: World, v: World, programs: map<string, Program>, previous: map<string, Desired>, n: string)
    requires n in programs
  {
    && n in v.current && n in v.desired && v.current[n] < |v.objs|
    && if Kept(w, programs, n) then
         && n in w.current && n in w.desired && v.current[n] == w.current[n] < |w.objs| && v.desired[n] == w.desired[n]
       else
         && v.current[n] >= |w.objs| && v.objs[v.current[n]] == NewObj(n, programs[n])
         && if n in w.programs then n in previous && v.desired[n] == previous[n]
            else v.desired[n] == if programs[n].autostart then WantRunning else WantStopped
  }

  /**
   * No object is touched by a reload. An unchanged program keeps its object and its wish; a changed one gets a new
   * object and the wish from before the reload, an added one a new object and its first wish.
   */
  lemma ReloadKeeps(w: World, programs: map<string, Program>, previous: map<string, Desired>, made: seq<string>)
    requires Shape(w) && CanSwap(w, programs, previous, made)
    ensures var v := SwapSpec(w, programs, previous, made);
      && v.current.Keys == v.desired.Keys == v.programs.Keys == programs.Keys
      && v.objs[..|w.objs|] == w.objs
      && forall n :: n in programs ==> Carried(w, v, programs, previous, n)
  {
    var v := SwapSpec(w, programs, previous, made);
    hide *;
    SwapKeys(w, programs, previous, made);
    forall k | 0 <= k < |w.objs| ensures v.objs[k] == w.objs[k] { SwappedObjs(w, programs, previous, made, k); }
    forall n | n in programs ensures Carried(w, v, programs, previous, n) {
      ReloadCarries(w, programs, previous, made, n);
    }
  }

  lemma ReloadCarries(w: World, programs: map<string, Program>, previous: map<string, Desired>, made: seq<string>,
                      n: string)
    requires Shape(w) && CanSwap(w, programs, previous, made) && n in programs
    ensures Carried(w, SwapSpec(w, programs, previous, made), programs, previous, n)
  {
    hide CanSwap, SwapSpec, NewSlot, Shape, NoDup;
    MadeOrKept(w, programs, previous, made, n);
    OldOrNew(w, programs, previous, made, n);
    NewSlotIs(w, made, n);
    SwapCurrent(w, programs, previous, made, n);
    SwapWish(w, programs, previous, made, n);
    if n !in made { ShapeAt(w, n); }
    SwappedObjs(w, programs, previous, made, NewSlot(w, made, n));
  }

  lemma MadeOrKept(w: World, programs: map<string, Program>, previous: map<string, Desired>, made: seq<string>,
                   n: string)
    requires CanSwap(w, programs, previous, made) && n in programs
    ensures n in made <==> !Kept(w, programs, n)
  {
    hide NoDup, Kept;
  }

  lemma AddedAre(current: map<string, Program>, updated: map<string, Program>,
                 added: seq<string>, removed: seq<string>, changed: seq<string>)
    requires AreChanges(current, updated, added, removed, changed)
    ensures forall n :: n in updated && n !in current ==> n in added
  {
    forall n | n in updated && n !in current ensures n in added { assert n in Elements(added); }
  }

  lemma BusySwapped(busy: set<string>, current: map<string, Program>, updated: map<string, Program>,
                    removed: seq<string>)
    requires busy <= current.Keys && forall n :: n in removed <==> n in current && n !in updated
    ensures busy - Elements(removed) == busy * updated.Keys
  {
  }

  lemma SwapWorld(w: World, programs: map<string, Program>, previous: map<string, Desired>, made: seq<string>, v: World)
    requires CanSwap(w, programs, previous, made) && forall n :: n in made ==> n in programs
    requires v.programs == programs && v.current == SwapSpec(w, programs, previous, made).current
    requires v.desired == SwapSpec(w, programs, previous, made).desired
    requires v.objs == w.objs + NewObjs(programs, made)
    requires v.busy == w.busy * programs.Keys && v.history == w.history
    ensures v == SwapSpec(w, programs, previous, made)
  {
    hide CanSwap, NewSlot, NewObjs;
  }

  lemma SwapKeepsInv(w: World, lost: set<nat>, programs: map<string, Program>, previous: map<string, Desired>,
                     made: seq<string>)
    requires InvBut(w, lost) && CanSwap(w, programs, previous, made) && NoEarlyReturn(w, programs)
    ensures InvBut(SwapSpec(w, programs, previous, made), lost)
  {
    hide InvBut, CanSwap, SwapSpec, NoEarlyReturn;
    InvButStep(w, lost, Swap(programs, previous, made));
  }
}
