/** internal/process/reaper.go: one destructive wait4, and forks that register before it may run. */
module Reaper {
  import opened Common
  import opened Lifecycle

  /** A slot of the kernel's process table; id tells apart processes that reuse a PID. */
  datatype Entry = Alive(id: nat) | Zombie(id: nat, status: Status)

  /** A status as it travels: the process it belongs to goes with it in the model only. */
  datatype Delivery = Delivery(id: nat, status: Status)

  /** The channel a spawn returns, with room for one status. */
  datatype Chan = Chan(sent: seq<Delivery>, taken: nat, closes: nat)

  /** How far a call of spawn has got; the middle three hold the read lock. */
  datatype Spawn =
    | Locked
    | Forked(pid: nat, id: nat)
    | Registered(pid: nat, id: nat)
    | Returned(pid: nat, id: nat)
    | Failed

  /** How far reapAll has got; every state but the first holds the write lock. */
  datatype Reaping =
    | Idle
    | Holding
    | Collected(pid: nat, id: nat, status: Status)
    | Delivering(chan: nat, id: nat, status: Status)
    | Sent(chan: nat)

  datatype World = World(
    table: map<nat, Entry>,
    nextId: nat,
    exits: map<nat, Status>,
    spawns: map<nat, Spawn>,
    reaping: Reaping,
    waiters: map<nat, nat>,
    chans: map<nat, Chan>)

  datatype Step =
    | Exits(pid: nat, status: Status)
    | OrphanArrives(pid: nat, dead: Option<Status>)
    | Acquire(call: nat)
    | Fork(call: nat, pid: nat)
    | ForkFails(call: nat)
    | Register(call: nat)
    | Release(call: nat)
    | Lock
    | Wait4(pid: nat)
    | DropWaiter
    | Send
    | Close
    | Unlock
    | Receive(call: nat)

  predicate Reads(s: Spawn) {
    s.Locked? || s.Forked? || s.Registered?
  }

  predicate HasForked(s: Spawn) {
    s.Forked? || s.Registered? || s.Returned?
  }

  /** barrier is the forking lock; false is the daemon without it. */
  predicate Enabled(w: World, step: Step, barrier: bool) {
    match step
    case Exits(pid, _) => pid in w.table && w.table[pid].Alive?
    case OrphanArrives(pid, _) => pid !in w.table
    case Acquire(c) => c !in w.spawns && (barrier ==> w.reaping.Idle?)
    case Fork(c, pid) => c in w.spawns && w.spawns[c].Locked? && pid !in w.table
    case ForkFails(c) => c in w.spawns && w.spawns[c].Locked?
    case Register(c) => c in w.spawns && w.spawns[c].Forked?
    case Release(c) => c in w.spawns && w.spawns[c].Registered?
    case Lock => w.reaping.Idle? && (barrier ==> forall c :: c in w.spawns ==> !Reads(w.spawns[c]))
    case Wait4(pid) => w.reaping.Holding? && pid in w.table && w.table[pid].Zombie?
    case DropWaiter => w.reaping.Collected?
    case Send =>
      && w.reaping.Delivering? && w.reaping.chan in w.chans
      && |w.chans[w.reaping.chan].sent| == w.chans[w.reaping.chan].taken
      && w.chans[w.reaping.chan].closes == 0
    case Close => w.reaping.Sent? && w.reaping.chan in w.chans && w.chans[w.reaping.chan].closes == 0
    case Unlock => w.reaping.Holding? && forall pid :: pid in w.table ==> w.table[pid].Alive?
    case Receive(c) => c in w.chans && w.chans[c].taken < |w.chans[c].sent|
  }

  function Apply(w: World, step: Step, barrier: bool): World
    requires Enabled(w, step, barrier)
  {
    match step
    case Exits(pid, status) =>
      w.(table := w.table[pid := Zombie(w.table[pid].id, status)], exits := w.exits[w.table[pid].id := status])
    case OrphanArrives(pid, None) => w.(table := w.table[pid := Alive(w.nextId)], nextId := w.nextId + 1)
    case OrphanArrives(pid, Some(status)) =>
      w.(table := w.table[pid := Zombie(w.nextId, status)], exits := w.exits[w.nextId := status],
         nextId := w.nextId + 1)
    case Acquire(c) => w.(spawns := w.spawns[c := Locked])
    case Fork(c, pid) =>
      w.(table := w.table[pid := Alive(w.nextId)], spawns := w.spawns[c := Forked(pid, w.nextId)],
         nextId := w.nextId + 1)
    case ForkFails(c) => w.(spawns := w.spawns[c := Failed])
    case Register(c) =>
      w.(chans := w.chans[c := Chan([], 0, 0)], waiters := w.waiters[w.spawns[c].pid := c],
         spawns := w.spawns[c := Registered(w.spawns[c].pid, w.spawns[c].id)])
    case Release(c) => w.(spawns := w.spawns[c := Returned(w.spawns[c].pid, w.spawns[c].id)])
    case Lock => w.(reaping := Holding)
    case Wait4(pid) =>
      w.(reaping := Collected(pid, w.table[pid].id, w.table[pid].status), table := w.table - {pid})
    case DropWaiter =>
      var r := w.reaping;
      if r.pid in w.waiters then
        w.(reaping := Delivering(w.waiters[r.pid], r.id, r.status), waiters := w.waiters - {r.pid})
      else w.(reaping := Holding)
    case Send =>
      var r := w.reaping;
      var ch := w.chans[r.chan];
      w.(reaping := Sent(r.chan), chans := w.chans[r.chan := ch.(sent := ch.sent + [Delivery(r.id, r.status)])])
    case Close =>
      var ch := w.chans[w.reaping.chan];
      w.(reaping := Holding, chans := w.chans[w.reaping.chan := ch.(closes := ch.closes + 1)])
    case Unlock => w.(reaping := Idle)
    case Receive(c) => w.(chans := w.chans[c := w.chans[c].(taken := w.chans[c].taken + 1)])
  }

  const START := World(map[], 0, map[], map[], Idle, map[], map[])

  ghost predicate CanRun(w: World, steps: seq<Step>, barrier: bool)
    decreases |steps|
  {
    steps == [] || (Enabled(w, steps[0], barrier) && CanRun(Apply(w, steps[0], barrier), steps[1..], barrier))
  }

  ghost function After(w: World, steps: seq<Step>, barrier: bool): World
    requires CanRun(w, steps, barrier)
    decreases |steps|
  {
    if steps == [] then w else After(Apply(w, steps[0], barrier), steps[1..], barrier)
  }

  // ---------------------------------------------------------------- the invariant

  /** The process table: ids are fresh, none is in two slots, and an exit is known iff it happened. */
  ghost predicate TableOk(table: map<nat, Entry>, nextId: nat, exits: map<nat, Status>) {
    && (forall p :: p in table ==> table[p].id < nextId)
    && (forall p, q :: p in table && q in table && p != q ==> table[p].id != table[q].id)
    && (forall p :: p in table && table[p].Alive? ==> table[p].id !in exits)
    && (forall p :: p in table && table[p].Zombie? ==> table[p].id in exits && exits[table[p].id] == table[p].status)
    && (forall i :: i in exits ==> i < nextId)
  }

  /** No two calls forked the same process. */
  ghost predicate SpawnsOk(spawns: map<nat, Spawn>, nextId: nat) {
    && (forall c :: c in spawns && HasForked(spawns[c]) ==> spawns[c].id < nextId)
    && (forall c, d :: c in spawns && d in spawns && c != d && HasForked(spawns[c]) && HasForked(spawns[d])
          ==> spawns[c].id != spawns[d].id)
  }

  /** What wait4 returned belongs to a process that is in no slot any more. */
  ghost predicate CollectedOk(table: map<nat, Entry>, nextId: nat, exits: map<nat, Status>, reaping: Reaping) {
    reaping.Collected? ==>
      && reaping.id in exits && exits[reaping.id] == reaping.status && reaping.id < nextId
      && forall p :: p in table ==> table[p].id != reaping.id
  }

  /** Processes are told apart. */
  ghost predicate Identities(w: World) {
    && TableOk(w.table, w.nextId, w.exits)
    && SpawnsOk(w.spawns, w.nextId)
    && CollectedOk(w.table, w.nextId, w.exits, w.reaping)
  }

  /** The forking lock: a fork that is not registered yet excludes reaping. */
  ghost predicate Excluded(w: World) {
    !w.reaping.Idle? ==> forall c :: c in w.spawns ==> !Reads(w.spawns[c])
  }

  /** The child of c is in the table under its PID. */
  predicate InTable(w: World, c: nat)
    requires c in w.spawns && HasForked(w.spawns[c])
  {
    w.spawns[c].pid in w.table && w.table[w.spawns[c].pid].id == w.spawns[c].id
  }

  /** The child of c has been collected and its waiter not looked up yet. */
  predicate JustCollected(w: World, c: nat)
    requires c in w.spawns && HasForked(w.spawns[c])
  {
    w.reaping.Collected? && w.reaping.pid == w.spawns[c].pid && w.reaping.id == w.spawns[c].id
  }

  /** A registered child: unreaped and waited for, or its status on the way, or sent. */
  ghost predicate Tracked(w: World, c: nat) {
    && c in w.spawns && (w.spawns[c].Registered? || w.spawns[c].Returned?) && c in w.chans
    && var s, ch := w.spawns[c], w.chans[c];
       && ch.taken <= |ch.sent|
       && if ch.sent == [] then
            && ch.closes == 0
            && if s.pid in w.waiters && w.waiters[s.pid] == c then InTable(w, c) || JustCollected(w, c)
               else w.reaping.Delivering? && w.reaping.chan == c && w.reaping.id == s.id
                    && s.id in w.exits && w.exits[s.id] == w.reaping.status
          else
            && s.id in w.exits && ch.sent == [Delivery(s.id, w.exits[s.id])]
            && !(s.pid in w.waiters && w.waiters[s.pid] == c)
            && !(w.reaping.Delivering? && w.reaping.chan == c)
            && ch.closes == if w.reaping == Sent(c) then 0 else 1
  }

  /** The waiters map holds registered channels only, each under its own PID. */
  ghost predicate Waited(w: World) {
    && (forall c :: c in w.chans <==> c in w.spawns && (w.spawns[c].Registered? || w.spawns[c].Returned?))
    && (forall c :: c in w.spawns && w.spawns[c].Forked? ==> InTable(w, c))
    && (forall p :: p in w.waiters ==> w.waiters[p] in w.chans && w.spawns[w.waiters[p]].pid == p)
    && (w.reaping.Collected? && w.reaping.pid in w.waiters ==> w.spawns[w.waiters[w.reaping.pid]].id == w.reaping.id)
    && (w.reaping.Delivering? || w.reaping.Sent? ==> w.reaping.chan in w.chans)
    && (w.reaping.Delivering? ==>
          w.chans[w.reaping.chan].sent == [] && forall p :: p in w.waiters ==> w.waiters[p] != w.reaping.chan)
    && (w.reaping.Sent? ==> w.chans[w.reaping.chan].sent != [])
  }

  ghost predicate Inv(w: World) {
    Identities(w) && Excluded(w) && Waited(w) && forall c :: c in w.chans ==> Tracked(w, c)
  }

  lemma InvStart()
    ensures Inv(START)
  {
  }

  lemma TableExit(table: map<nat, Entry>, nextId: nat, exits: map<nat, Status>, pid: nat, status: Status)
    requires TableOk(table, nextId, exits) && pid in table && table[pid].Alive?
    ensures TableOk(table[pid := Zombie(table[pid].id, status)], nextId, exits[table[pid].id := status])
  {
  }

  lemma TableArrival(table: map<nat, Entry>, nextId: nat, exits: map<nat, Status>, pid: nat)
    requires TableOk(table, nextId, exits) && pid !in table
    ensures TableOk(table[pid := Alive(nextId)], nextId + 1, exits)
  {
  }

  lemma TableDeadArrival(table: map<nat, Entry>, nextId: nat, exits: map<nat, Status>, pid: nat, status: Status)
    requires TableOk(table, nextId, exits) && pid !in table
    ensures TableOk(table[pid := Zombie(nextId, status)], nextId + 1, exits[nextId := status])
  {
  }

  lemma TableCollect(table: map<nat, Entry>, nextId: nat, exits: map<nat, Status>, pid: nat)
    requires TableOk(table, nextId, exits)
    ensures TableOk(table - {pid}, nextId, exits)
  {
  }

  lemma TableStep(w: World, step: Step)
    requires TableOk(w.table, w.nextId, w.exits) && Enabled(w, step, true)
    ensures TableOk(Apply(w, step, true).table, Apply(w, step, true).nextId, Apply(w, step, true).exits)
  {
    hide TableOk;
    match step
    case Exits(pid, status) => TableExit(w.table, w.nextId, w.exits, pid, status);
    case OrphanArrives(pid, None) => TableArrival(w.table, w.nextId, w.exits, pid);
    case OrphanArrives(pid, Some(status)) => TableDeadArrival(w.table, w.nextId, w.exits, pid, status);
    case Fork(_, pid) => TableArrival(w.table, w.nextId, w.exits, pid);
    case Wait4(pid) => TableCollect(w.table, w.nextId, w.exits, pid);
    case _ =>
  }

  lemma SpawnsStep(w: World, step: Step)
    requires SpawnsOk(w.spawns, w.nextId) && Enabled(w, step, true)
    ensures SpawnsOk(Apply(w, step, true).spawns, Apply(w, step, true).nextId)
  {
  }

  lemma CollectedStep(w: World, step: Step)
    requires Identities(w) && Enabled(w, step, true)
    ensures CollectedOk(Apply(w, step, true).table, Apply(w, step, true).nextId, Apply(w, step, true).exits,
                        Apply(w, step, true).reaping)
  {
    hide SpawnsOk;
  }

  lemma IdentitiesStep(w: World, step: Step)
    requires Identities(w) && Enabled(w, step, true)
    ensures Identities(Apply(w, step, true))
  {
    hide TableOk, SpawnsOk, CollectedOk, Apply, Enabled;
    TableStep(w, step);
    SpawnsStep(w, step);
    CollectedStep(w, step);
  }

  lemma ExcludedStep(w: World, step: Step)
    requires Excluded(w) && Enabled(w, step, true)
    ensures Excluded(Apply(w, step, true))
  {
  }

  predicate OfKernel(step: Step) {
    step.Exits? || step.OrphanArrives?
  }

  predicate OfSpawn(step: Step) {
    step.Acquire? || step.Fork? || step.ForkFails? || step.Register? || step.Release?
  }

  lemma KernelKeeps(w: World, step: Step)
    requires Enabled(w, step, true) && OfKernel(step) && TableOk(w.table, w.nextId, w.exits)
    ensures var w' := Apply(w, step, true);
            && w'.spawns == w.spawns && w'.reaping == w.reaping && w'.waiters == w.waiters && w'.chans == w.chans
            && (forall i :: i in w.exits ==> i in w'.exits && w'.exits[i] == w.exits[i])
            && forall c :: c in w.spawns && HasForked(w.spawns[c]) && InTable(w, c) ==> InTable(w', c)
  {
  }

  lemma WaitedKernelStep(w: World, step: Step)
    requires Waited(w) && Enabled(w, step, true) && OfKernel(step) && TableOk(w.table, w.nextId, w.exits)
    ensures Waited(Apply(w, step, true))
  {
    hide Apply, Enabled, InTable, TableOk;
    KernelKeeps(w, step);
  }

  lemma WaitedSpawnStep(w: World, step: Step)
    requires Waited(w) && Excluded(w) && Enabled(w, step, true) && OfSpawn(step)
    ensures Waited(Apply(w, step, true))
  {
  }

  lemma WaitedReapStep(w: World, step: Step)
    requires Inv(w) && Enabled(w, step, true) && !OfKernel(step) && !OfSpawn(step)
    ensures Waited(Apply(w, step, true))
  {
    hide Identities;
    if step.Wait4? {
      if step.pid in w.waiters { assert Tracked(w, w.waiters[step.pid]); }
    } else if step.DropWaiter? {
      if w.reaping.pid in w.waiters { assert Tracked(w, w.waiters[w.reaping.pid]); }
    } else {
      hide Tracked, Inv;
    }
  }

  lemma WaitedStep(w: World, step: Step)
    requires Inv(w) && Enabled(w, step, true)
    ensures Waited(Apply(w, step, true))
  {
    hide TableOk, CollectedOk, Excluded, Waited, Tracked, SpawnsOk, Apply, Enabled;
    if OfKernel(step) {
      WaitedKernelStep(w, step);
    } else if OfSpawn(step) {
      WaitedSpawnStep(w, step);
    } else {
      WaitedReapStep(w, step);
    }
  }

  lemma TrackedKernelStep(w: World, step: Step, c: nat)
    requires Inv(w) && Enabled(w, step, true) && OfKernel(step) && c in w.chans
    ensures Tracked(Apply(w, step, true), c)
  {
    hide CollectedOk, Waited, Excluded, TableOk, SpawnsOk, InTable, Apply, Enabled;
    KernelKeeps(w, step);
    assert Tracked(w, c);
  }

  lemma ForkedInTable(w: World, c: nat)
    requires Waited(w) && c in w.spawns && w.spawns[c].Forked?
    ensures InTable(w, c)
  {
  }

  /** A call about to register does not have the PID of a child still waited for. */
  lemma OwnPid(w: World, forked: nat, c: nat)
    requires Inv(w) && forked in w.spawns && w.spawns[forked].Forked? && c in w.chans
    requires w.spawns[c].pid in w.waiters && w.waiters[w.spawns[c].pid] == c
    ensures w.spawns[forked].pid != w.spawns[c].pid
  {
  }

  lemma TrackedSpawnStep(w: World, step: Step, c: nat)
    requires Inv(w) && Enabled(w, step, true) && OfSpawn(step) && c in Apply(w, step, true).chans
    ensures Tracked(Apply(w, step, true), c)
  {
    hide TableOk, CollectedOk, SpawnsOk, Waited;
    if step != Register(c) {
      assert Tracked(w, c);
      if step.Register? && w.spawns[c].pid in w.waiters && w.waiters[w.spawns[c].pid] == c {
        OwnPid(w, step.call, c);
      }
    } else {
      ForkedInTable(w, c);
    }
  }

  lemma TrackedReapStep(w: World, step: Step, c: nat)
    requires Inv(w) && Enabled(w, step, true) && !OfKernel(step) && !OfSpawn(step) && c in w.chans
    ensures Tracked(Apply(w, step, true), c)
  {
    hide TableOk, SpawnsOk;
    assert Tracked(w, c);
  }

  lemma TrackedStep(w: World, step: Step, c: nat)
    requires Inv(w) && Enabled(w, step, true) && c in Apply(w, step, true).chans
    ensures Tracked(Apply(w, step, true), c)
  {
    hide Identities, Excluded, Waited, Tracked;
    if OfKernel(step) {
      TrackedKernelStep(w, step, c);
    } else if OfSpawn(step) {
      TrackedSpawnStep(w, step, c);
    } else {
      TrackedReapStep(w, step, c);
    }
  }

  lemma InvStep(w: World, step: Step)
    requires Inv(w) && Enabled(w, step, true)
    ensures Inv(Apply(w, step, true))
  {
    hide Identities, Excluded, Waited, Tracked, Apply, Enabled;
    IdentitiesStep(w, step);
    ExcludedStep(w, step);
    WaitedStep(w, step);
    forall c | c in Apply(w, step, true).chans ensures Tracked(Apply(w, step, true), c) {
      TrackedStep(w, step, c);
    }
  }

  lemma {:induction false} InvAfter(w: World, steps: seq<Step>)
    requires Inv(w) && CanRun(w, steps, true)
    ensures Inv(After(w, steps, true))
    decreases |steps|
  {
    if steps != [] {
      InvStep(w, steps[0]);
      InvAfter(Apply(w, steps[0], true), steps[1..]);
    }
  }

  // ---------------------------------------------------------------- what spawn promises

  /** What arrives on the channel of call c is the status of the process that call forked, once. */
  ghost predicate OnlyItsOwn(w: World, c: nat)
    requires c in w.chans
  {
    && c in w.spawns && HasForked(w.spawns[c])
    && |w.chans[c].sent| <= 1 && w.chans[c].closes <= |w.chans[c].sent|
    && forall d :: d in w.chans[c].sent ==>
                     d.id == w.spawns[c].id && d.id in w.exits && d.status == w.exits[d.id]
  }

  /** In every interleaving of forks, exits, reaps, orphans and reused PIDs. */
  lemma StatusesReachTheirOwner(steps: seq<Step>, c: nat)
    requires CanRun(START, steps, true) && c in After(START, steps, true).chans
    ensures OnlyItsOwn(After(START, steps, true), c)
  {
    InvStart();
    InvAfter(START, steps);
    assert Tracked(After(START, steps, true), c);
  }

  /** The reaper is never held up by a channel: the buffer has room whenever it sends. */
  lemma SendNeverBlocks(steps: seq<Step>)
    requires CanRun(START, steps, true)
    ensures var w := After(START, steps, true);
            && (w.reaping.Delivering? ==> Enabled(w, Send, true))
            && (w.reaping.Sent? ==> Enabled(w, Close, true))
  {
    InvStart();
    InvAfter(START, steps);
    var w := After(START, steps, true);
    if w.reaping.Delivering? || w.reaping.Sent? { assert Tracked(w, w.reaping.chan); }
  }

  /** Between two reaps, a registered child that was collected has had its status delivered. */
  lemma NothingIsLost(w: World, c: nat)
    requires Inv(w) && w.reaping.Idle? && c in w.chans
    requires w.spawns[c].id in w.exits && !InTable(w, c)
    ensures w.chans[c].sent == [Delivery(w.spawns[c].id, w.exits[w.spawns[c].id])] && w.chans[c].closes == 1
  {
  }

  /**
   * Without the lock the reaper may collect a child before its PID is registered. The status is
   * taken for an orphan's, and the next orphan to reuse the PID is reported to the wrong caller.
   */
  lemma BarrierIsNeeded()
    ensures exists steps ::
              && CanRun(START, steps, false)
              && var w := After(START, steps, false);
                 0 in w.chans && !OnlyItsOwn(w, 0)
  {
    var rest := [OrphanArrives(7, Some(ExitedWith(1))), Lock, Wait4(7), DropWaiter, Send, Close];
    MisdeliveredWithoutBarrier(LOST, rest);
    var steps := LostWithoutBarrier(rest);
    assert CanRun(START, steps, false) && 0 in After(START, steps, false).chans;
  }

  /** Call 0 has returned, but its child was collected before it registered. */
  const LOST := World(map[], 1, map[0 := ExitedWith(0)], map[0 := Returned(7, 0)], Idle, map[7 := 0],
                      map[0 := Chan([], 0, 0)])

  lemma LostWithoutBarrier(rest: seq<Step>) returns (steps: seq<Step>)
    requires CanRun(LOST, rest, false)
    ensures CanRun(START, steps, false) && After(START, steps, false) == After(LOST, rest, false)
  {
    var first := [Acquire(0), Fork(0, 7), Exits(7, ExitedWith(0))];
    var second := [Lock, Wait4(7), DropWaiter];
    var third := [Unlock, Register(0), Release(0)];
    assert (third + rest)[3..] == rest;
    assert (second + (third + rest))[3..] == third + rest;
    assert (first + (second + (third + rest)))[3..] == second + (third + rest);
    steps := first + (second + (third + rest));
    var w3 := Run3(START, steps);
    var w6 := Run3(w3, second + (third + rest));
    var w9 := Run3(w6, third + rest);
    assert w9 == LOST;
  }

  lemma MisdeliveredWithoutBarrier(w: World, steps: seq<Step>)
    requires w == LOST
    requires steps == [OrphanArrives(7, Some(ExitedWith(1))), Lock, Wait4(7), DropWaiter, Send, Close]
    ensures CanRun(w, steps, false)
    ensures 0 in After(w, steps, false).chans && !OnlyItsOwn(After(w, steps, false), 0)
  {
    var w3 := Run3(w, steps);
    assert w3 == STOLEN;
    assert steps[3..] == [DropWaiter, Send, Close];
    DeliverStolen(w3, steps[3..]);
  }

  /** The orphan that reused the PID has been collected. */
  const STOLEN := World(map[], 2, map[0 := ExitedWith(0), 1 := ExitedWith(1)], map[0 := Returned(7, 0)],
                        Collected(7, 1, ExitedWith(1)), map[7 := 0], map[0 := Chan([], 0, 0)])

  lemma DeliverStolen(w: World, steps: seq<Step>)
    requires w == STOLEN && steps == [DropWaiter, Send, Close]
    ensures CanRun(w, steps, false)
    ensures 0 in After(w, steps, false).chans && !OnlyItsOwn(After(w, steps, false), 0)
  {
    var after := Run3(w, steps);
    assert steps[3..] == [] && CanRun(after, steps[3..], false);
    assert after.chans[0].sent == [Delivery(1, ExitedWith(1))] && after.spawns[0] == Returned(7, 0);
    assert Delivery(1, ExitedWith(1)) in after.chans[0].sent;
  }

  /** Takes the first three of steps; what follows is run from where they lead. */
  lemma Run3(w: World, steps: seq<Step>) returns (after: World)
    requires |steps| >= 3
    requires Enabled(w, steps[0], false)
    requires Enabled(Apply(w, steps[0], false), steps[1], false)
    requires Enabled(Apply(Apply(w, steps[0], false), steps[1], false), steps[2], false)
    ensures after == Apply(Apply(Apply(w, steps[0], false), steps[1], false), steps[2], false)
    ensures CanRun(after, steps[3..], false) ==>
              CanRun(w, steps, false) && After(w, steps, false) == After(after, steps[3..], false)
  {
    hide Apply, Enabled;
    assert steps[1..][0] == steps[1] && steps[1..][1..] == steps[2..];
    assert steps[2..][0] == steps[2] && steps[2..][1..] == steps[3..];
    var w1 := Run1(w, steps);
    var w2 := Run1(w1, steps[1..]);
    after := Run1(w2, steps[2..]);
  }

  lemma Run1(w: World, steps: seq<Step>) returns (after: World)
    requires steps != [] && Enabled(w, steps[0], false)
    ensures after == Apply(w, steps[0], false)
    ensures CanRun(after, steps[1..], false) ==>
              CanRun(w, steps, false) && After(w, steps, false) == After(after, steps[1..], false)
  {
    hide Apply, Enabled;
    after := Apply(w, steps[0], false);
  }

  lemma {:induction false} Extend(w: World, steps: seq<Step>, step: Step)
    requires CanRun(w, steps, true) && Enabled(After(w, steps, true), step, true)
    ensures CanRun(w, steps + [step], true)
    ensures After(w, steps + [step], true) == Apply(After(w, steps, true), step, true)
    decreases |steps|
  {
    hide Apply, Enabled;
    var longer := steps + [step];
    if steps == [] {
      assert longer[1..] == [];
    } else {
      assert longer[1..] == steps[1..] + [step];
      Extend(Apply(w, steps[0], true), steps[1..], step);
    }
  }

  /** v is reached from w by steps of the daemon and its children. */
  ghost predicate Leads(w: World, v: World) {
    exists steps :: CanRun(w, steps, true) && After(w, steps, true) == v
  }

  lemma LeadsOn(w: World, v: World, step: Step)
    requires Leads(w, v) && Enabled(v, step, true)
    ensures Leads(w, Apply(v, step, true))
  {
    var steps :| CanRun(w, steps, true) && After(w, steps, true) == v;
    Extend(w, steps, step);
  }

  lemma LeadsNowhere(w: World)
    ensures Leads(w, w)
  {
    assert CanRun(w, [], true) && After(w, [], true) == w;
  }

  /** The reaper over the process table, one call at a time. */
  class ChildReaper {
    var table: map<nat, Entry>
    var nextId: nat
    var exits: map<nat, Status>
    var spawns: map<nat, Spawn>
    var waiters: map<nat, nat>
    var chans: map<nat, Chan>

    constructor ()
      ensures Now(Idle) == START
    {
      table, nextId, exits, spawns, waiters, chans := map[], 0, map[], map[], map[], map[];
    }

    function Now(reaping: Reaping): World
      reads this
    {
      World(table, nextId, exits, spawns, reaping, waiters, chans)
    }

    /** spawn; start is the PID the fork produced, if it worked. */
    method Spawn(call: nat, start: Option<nat>) returns (ok: bool)
      requires call !in spawns && (start.Some? ==> start.value !in table)
      modifies this
      ensures Leads(old(Now(Idle)), Now(Idle))
      ensures ok == start.Some?
      ensures ok ==> && waiters == old(waiters)[start.value := call] && chans == old(chans)[call := Chan([], 0, 0)]
                     && call in spawns && spawns[call] == Returned(start.value, old(nextId))
      ensures !ok ==> waiters == old(waiters) && chans == old(chans) && table == old(table)
    {
      ghost var before := Now(Idle);
      LeadsNowhere(before);
      LeadsOn(before, Now(Idle), Acquire(call));
      spawns := spawns[call := Locked];
      if start.None? {
        LeadsOn(before, Now(Idle), ForkFails(call));
        spawns := spawns[call := Failed];
        return false;
      }
      var pid := start.value;
      LeadsOn(before, Now(Idle), Fork(call, pid));
      var id := nextId;
      table, nextId, spawns := table[pid := Alive(id)], id + 1, spawns[call := Forked(pid, id)];
      LeadsOn(before, Now(Idle), Register(call));
      chans, waiters := chans[call := Chan([], 0, 0)], waiters[pid := call];
      spawns := spawns[call := Registered(pid, id)];
      LeadsOn(before, Now(Idle), Release(call));
      spawns := spawns[call := Returned(pid, id)];
      ok := true;
    }

    /** What happens outside the reaper while it works: exits, orphans, and readers of channels. */
    method Elsewhere(event: Step, ghost before: World)
      requires (OfKernel(event) || event.Receive?) && Leads(before, Now(Holding))
      modifies this`table, this`nextId, this`exits, this`chans
      ensures Leads(before, Now(Holding))
    {
      if Enabled(Now(Holding), event, true) {
        LeadsOn(before, Now(Holding), event);
        var w := Apply(Now(Holding), event, true);
        table, nextId, exits, chans := w.table, w.nextId, w.exits, w.chans;
      }
    }

    /** One pass of the loop in reapAll: wait4 returned pid. */
    method CollectOne(pid: nat, ghost before: World)
      requires pid in table && table[pid].Zombie?
      requires Inv(before) && Leads(before, Now(Holding))
      modifies this`table, this`waiters, this`chans
      ensures Leads(before, Now(Holding))
      ensures table == old(table) - {pid}
    {
      LeadsOn(before, Now(Holding), Wait4(pid));
      var id, status := table[pid].id, table[pid].status;
      table := table - {pid};
      ghost var collected := Collected(pid, id, status);
      LeadsOn(before, Now(collected), DropWaiter);
      if pid !in waiters { return; }
      var exited := waiters[pid];
      waiters := waiters - {pid};
      ghost var delivering := Delivering(exited, id, status);
      assert Leads(before, Now(delivering));
      CanSend(before, Now(delivering));
      LeadsOn(before, Now(delivering), Send);
      chans := chans[exited := chans[exited].(sent := chans[exited].sent + [Delivery(id, status)])];
      LeadsOn(before, Now(Sent(exited)), Close);
      chans := chans[exited := chans[exited].(closes := chans[exited].closes + 1)];
    }

    lemma CanSend(before: World, w: World)
      requires Inv(before) && Leads(before, w) && w.reaping.Delivering?
      ensures Enabled(w, Send, true)
    {
      var steps :| CanRun(before, steps, true) && After(before, steps, true) == w;
      InvAfter(before, steps);
      assert Tracked(w, w.reaping.chan);
    }

    /**
     * reapAll, with events happening elsewhere between its wait4 calls: it returns with no
     * zombie left, and every exit of a registered child so far delivered.
     */
    method ReapAll(events: seq<Step>)
      requires Inv(Now(Idle)) && forall c :: c in spawns ==> !Reads(spawns[c])
      requires forall e :: e in events ==> OfKernel(e) || e.Receive?
      modifies this
      ensures Leads(old(Now(Idle)), Now(Idle)) && Inv(Now(Idle))
      ensures forall pid :: pid in table ==> table[pid].Alive?
      ensures forall c :: c in chans && spawns[c].id in exits ==>
                            chans[c].sent == [Delivery(spawns[c].id, exits[spawns[c].id])] && chans[c].closes == 1
    {
      ghost var before := Now(Idle);
      LeadsNowhere(before);
      LeadsOn(before, Now(Idle), Lock);
      var next := 0;
      while true
        invariant 0 <= next <= |events| && Leads(before, Now(Holding))
        decreases |events| - next, |table|
      {
        if next < |events| {
          Elsewhere(events[next], before);
          next := next + 1;
        }
        if pid :| pid in table && table[pid].Zombie? {
          CollectOne(pid, before);
        } else {
          break;
        }
      }
      LeadsOn(before, Now(Holding), Unlock);
      AllDelivered(before, Now(Idle));
    }

    lemma AllDelivered(before: World, w: World)
      requires Inv(before) && Leads(before, w) && w.reaping.Idle?
      requires forall pid :: pid in w.table ==> w.table[pid].Alive?
      ensures Inv(w)
      ensures forall c :: c in w.chans && w.spawns[c].id in w.exits ==>
                            && w.chans[c].sent == [Delivery(w.spawns[c].id, w.exits[w.spawns[c].id])]
                            && w.chans[c].closes == 1
    {
      var steps :| CanRun(before, steps, true) && After(before, steps, true) == w;
      InvAfter(before, steps);
      forall c | c in w.chans && w.spawns[c].id in w.exits
        ensures w.chans[c].sent == [Delivery(w.spawns[c].id, w.exits[w.spawns[c].id])] && w.chans[c].closes == 1
      {
        NothingIsLost(w, c);
      }
    }
  }
}
