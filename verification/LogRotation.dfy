/** internal/logrotate/writer.go, Writer, and drainStream of internal/process/process.go, which feeds it. */
module LogRotation {
  import opened Common
  import opened Backups

  /**
   * What the file system does during one write: the numbers whose rename (for 0 also whose removal) fails,
   * whether the log cannot be reopened, and how many bytes the write would take.
   */
  datatype Faults = Faults(moves: set<nat>, noOpen: bool, room: nat)

  const EMPTY := File([], 0, true)

  /** O_CREATE|O_APPEND: the log as it is, or a new one. */
  function Opened(path: string, dir: Directory): Directory {
    if path in dir then dir else dir[path := EMPTY]
  }

  function Appended(f: File, p: Bytes): File {
    f.(data := f.data + p, writes := f.writes + if p == [] then 0 else 1)
  }

  /** The highest file a rotation moves away; without backups there is only the log itself to remove. */
  function Last(backups: int): nat {
    if backups <= 0 then 0 else backups - 1
  }

  /** Where a rotation of dir stops. */
  function Stop(path: string, dir: Directory, backups: int, stuck: set<nat>): int {
    StopsAt(path, dir, stuck, Last(backups))
  }

  /** File j of the chain after a rotation of dir that stopped at k, before the log is reopened. */
  function Rotated(path: string, dir: Directory, backups: int, k: int, j: nat): Option<File>
    requires k >= -1
  {
    if backups > 0 then After(path, dir, backups, k, j)
    else if j == 0 && k < 0 then None
    else At(path, dir, j)
  }

  /** What that rotation destroys. */
  function Lost(path: string, dir: Directory, backups: int, k: int): Bytes
    requires k >= -1
  {
    if backups > 0 then Destroyed(path, dir, backups, k)
    else if k < 0 then Data(At(path, dir, 0))
    else []
  }

  /** now holds the rotated chain and, apart from the chain, the names of dir. */
  ghost predicate IsRotation(path: string, dir: Directory, now: Directory, backups: int, k: int)
    requires k >= -1
  {
    && (forall j: nat :: At(path, now, j) == Rotated(path, dir, backups, k, j))
    && forall name :: !IsSlot(path, name) ==>
         (name in now <==> name in dir) && (name in dir ==> now[name] == dir[name])
  }

  /** The loop of shiftBackups with the files above i dealt with: now is what has become of dir. */
  ghost predicate Midway(path: string, dir: Directory, now: Directory, backups: int, stuck: set<nat>, i: int) {
    && 0 < backups && -1 <= i < backups
    && Shifted(path, dir, now, backups, i)
    && Stop(path, dir, backups, stuck) == StopsAt(path, dir, stuck, i)
    && now.Values <= dir.Values
  }

  lemma MidwayStarts(path: string, dir: Directory, backups: int, stuck: set<nat>)
    requires 0 < backups
    ensures Midway(path, dir, dir, backups, stuck, backups - 1)
  {
  }

  /** What one round does: the file is not there, or it cannot be moved and that is the end, or it moves up. */
  lemma MidwayMoves(path: string, dir: Directory, now: Directory, backups: int, stuck: set<nat>, i: nat)
    requires Midway(path, dir, now, backups, stuck, i)
    ensures Slot(path, i) !in now ==> Midway(path, dir, now, backups, stuck, i - 1)
    ensures Slot(path, i) in now && i in stuck ==>
              Stop(path, dir, backups, stuck) == i && Stopped(path, dir, now, backups, stuck, i)
    ensures Slot(path, i) in now && i !in stuck ==>
              Midway(path, dir, Renamed(now, Slot(path, i), Slot(path, i + 1)), backups, stuck, i - 1)
  {
    hide Shifted, IsRotation, Rotated, After, At, IsSlot, Slot;
    StopsHere(path, dir, now, backups, stuck, i);
    if Slot(path, i) !in now {
      ShiftGap(path, dir, now, backups, i);
    } else if i in stuck {
      MidwayStops(path, dir, now, backups, stuck, i);
    } else {
      ShiftOne(path, dir, now, backups, i);
    }
  }

  lemma NothingLeft(path: string, dir: Directory, stuck: set<nat>)
    ensures StopsAt(path, dir, stuck, -1) == -1
  {
  }

  lemma LogIsSlot(path: string)
    ensures Slot(path, 0) == path
  {
  }

  /** The shift ended at k, the file it could not move or -1. */
  ghost predicate Stopped(path: string, dir: Directory, now: Directory, backups: int, stuck: set<nat>, k: int) {
    && k >= -1
    && Stop(path, dir, backups, stuck) == k
    && IsRotation(path, dir, now, backups, k)
    && now.Values <= dir.Values
  }

  lemma MidwayStops(path: string, dir: Directory, now: Directory, backups: int, stuck: set<nat>, k: int)
    requires Midway(path, dir, now, backups, stuck, k) && StopsAt(path, dir, stuck, k) == k
    ensures Stop(path, dir, backups, stuck) == k && Stopped(path, dir, now, backups, stuck, k)
  {
  }

  /** now is dir rotated; once the log is reopened it is there, and surplus backups are gone. */
  ghost predicate RotatedTo(path: string, dir: Directory, now: Directory, backups: int, k: int, reopened: bool)
    requires k >= -1
  {
    && (forall j: nat :: j > 0 ==> At(path, now, j) == Rotated(path, dir, backups, k, j))
    && (var log := Rotated(path, dir, backups, k, 0);
        At(path, now, 0) == if reopened && log.None? then Some(EMPTY) else log)
    && OthersKept(path, dir, now, backups, reopened)
  }

  /** Names outside the chain keep their files; only pruning removes some, those that read as a surplus number. */
  ghost predicate OthersKept(path: string, dir: Directory, now: Directory, backups: int, pruned: bool) {
    forall name :: !IsSlot(path, name) ==>
      && (name in now <==> name in dir && !(pruned && Surplus(path, backups, name)))
      && (name in now ==> now[name] == dir[name])
  }

  lemma StopsInRange(path: string, dir: Directory, backups: int, stuck: set<nat>)
    ensures -1 <= Stop(path, dir, backups, stuck) <= Last(backups)
  {
  }

  function Top(backups: int): nat {
    if backups <= 0 then 0 else backups
  }

  /** No backup beyond the configured count. */
  ghost predicate NoneAbove(path: string, dir: Directory, backups: int) {
    forall n: nat :: n > Top(backups) ==> At(path, dir, n).None?
  }

  lemma RotationStaysBelow(path: string, dir: Directory, mid: Directory, backups: int, k: int)
    requires -1 <= k <= Last(backups) && IsRotation(path, dir, mid, backups, k) && NoneAbove(path, dir, backups)
    ensures NoneAbove(path, mid, backups)
    ensures RotatedTo(path, dir, mid, backups, k, false)
  {
  }

  lemma OpenedAt(path: string, dir: Directory, n: nat)
    ensures At(path, Opened(path, dir), n) == if n == 0 && At(path, dir, 0).None? then Some(EMPTY) else At(path, dir, n)
  {
  }

  /** The directory once the log is reopened and prune has run. */
  function Reopened(path: string, dir: Directory, backups: int): Directory {
    Pruned(path, backups, Opened(path, dir))
  }

  lemma ReopenedAt(path: string, dir: Directory, backups: int, j: nat)
    requires NoneAbove(path, dir, backups)
    ensures At(path, Reopened(path, dir, backups), j) ==
            if j == 0 && At(path, dir, 0).None? then Some(EMPTY) else At(path, dir, j)
  {
    hide At, Pruned, Opened, Surplus;
    PrunedAt(path, backups, Opened(path, dir), j);
    OpenedAt(path, dir, j);
    if j > Top(backups) { assert At(path, dir, j).None?; }
  }

  lemma ReopenedElsewhere(path: string, dir: Directory, backups: int, name: string)
    requires !IsSlot(path, name)
    ensures var now := Reopened(path, dir, backups);
      && (name in now <==> name in dir && !Surplus(path, backups, name))
      && (name in now ==> now[name] == dir[name])
  {
  }

  lemma ReopenedContents(path: string, mid: Directory, backups: int)
    requires NoneAbove(path, mid, backups)
    ensures Contents(path, Reopened(path, mid, backups), Top(backups) + 1) == Contents(path, mid, Top(backups) + 1)
  {
    var now := Reopened(path, mid, backups);
    hide At, Reopened, NoneAbove;
    forall j: nat ensures Data(At(path, now, j)) == Data(At(path, mid, j)) {
      ReopenedAt(path, mid, backups, j);
    }
    SameSlotsSameContents(path, mid, now, Top(backups) + 1);
  }

  lemma ReopenedOthers(path: string, dir: Directory, mid: Directory, backups: int)
    requires OthersKept(path, dir, mid, backups, false)
    ensures OthersKept(path, dir, Reopened(path, mid, backups), backups, true)
  {
    hide Surplus, IsSlot, Reopened;
    forall name | !IsSlot(path, name)
      ensures var now := Reopened(path, mid, backups);
        (name in now <==> name in dir && !Surplus(path, backups, name)) && (name in now ==> now[name] == dir[name])
    {
      ReopenedElsewhere(path, mid, backups, name);
    }
  }

  lemma Reopening(path: string, dir: Directory, mid: Directory, backups: int, k: int)
    requires -1 <= k <= Last(backups) && RotatedTo(path, dir, mid, backups, k, false)
    requires NoneAbove(path, mid, backups)
    ensures RotatedTo(path, dir, Reopened(path, mid, backups), backups, k, true)
    ensures NoneAbove(path, Reopened(path, mid, backups), backups)
    ensures path in Reopened(path, mid, backups)
    ensures Contents(path, Reopened(path, mid, backups), Top(backups) + 1) == Contents(path, mid, Top(backups) + 1)
  {
    StillThere(path, mid, backups);
    ReopenedContents(path, mid, backups);
    ReopenedOthers(path, dir, mid, backups);
    hide At, Reopened, Rotated, Contents, OthersKept;
    forall j: nat
      ensures At(path, Reopened(path, mid, backups), j) ==
              if j == 0 && At(path, mid, 0).None? then Some(EMPTY) else At(path, mid, j)
    {
      ReopenedAt(path, mid, backups, j);
    }
  }

  lemma RotationConserves(path: string, dir: Directory, now: Directory, backups: int, k: int)
    requires -1 <= k <= Last(backups) && IsRotation(path, dir, now, backups, k)
    ensures Contents(path, dir, Top(backups) + 1) ==
            Lost(path, dir, backups, k) + Contents(path, now, Top(backups) + 1)
  {
    hide At, IsSlot;
    if backups > 0 {
      ShiftConserves(path, dir, now, backups, k);
    } else {
      assert Contents(path, dir, 1) == Data(At(path, dir, 0)) + Contents(path, dir, 0);
      assert Contents(path, now, 1) == Data(At(path, now, 0)) + Contents(path, now, 0);
      assert At(path, now, 0) == Rotated(path, dir, backups, k, 0);
    }
  }

  /** The reopened log is new if the rotation took the old one away, and the old one otherwise. */
  lemma LogAfter(path: string, dir: Directory, now: Directory, backups: int, k: int)
    requires -1 <= k && RotatedTo(path, dir, now, backups, k, true) && path in dir
    ensures path in now && now[path] == if k < 0 then EMPTY else dir[path]
  {
  }

  lemma AppendKeepsBackups(path: string, dir: Directory, f: File, backups: int)
    ensures forall j: nat :: j > 0 ==> At(path, dir[path := f], j) == At(path, dir, j)
    ensures NoneAbove(path, dir, backups) ==> NoneAbove(path, dir[path := f], backups)
  {
    var now := dir[path := f];
    forall j: nat | j > 0 ensures At(path, now, j) == At(path, dir, j) {
      AppendLeavesBackups(path, dir, f, j);
    }
    if NoneAbove(path, dir, backups) {
      forall n: nat | n > Top(backups) ensures At(path, now, n).None? {
        assert At(path, dir, n).None?;
      }
    }
  }

  /** When nothing is stuck every file moves up by one; over a gap the highest stays. */
  lemma FullRotation(path: string, dir: Directory, backups: int)
    ensures Stop(path, dir, backups, {}) == -1
    ensures forall j: nat :: 0 < j <= backups ==>
      Rotated(path, dir, backups, -1, j) == if At(path, dir, j - 1).Some? then At(path, dir, j - 1)
                                            else if j == backups then At(path, dir, j) else None
  {
    CalmNeverStops(path, dir, backups);
    hide At;
  }

  lemma RotatedBackups(path: string, dir: Directory, now: Directory, backups: int, k: int, reopened: bool)
    requires k >= -1 && RotatedTo(path, dir, now, backups, k, reopened)
    ensures forall j: nat :: j > 0 ==> At(path, now, j) == Rotated(path, dir, backups, k, j)
  {
  }

  lemma AppendKeepsOthers(path: string, dir: Directory, now: Directory, f: File, backups: int, pruned: bool)
    requires OthersKept(path, dir, now, backups, pruned)
    ensures OthersKept(path, dir, now[path := f], backups, pruned)
  {
    hide Surplus, SuffixOf, HasSuffixOf, NumberIn;
  }

  lemma OthersKeptAtFirst(path: string, dir: Directory, backups: int)
    ensures OthersKept(path, dir, dir, backups, false)
  {
    hide Surplus, IsSlot;
  }

  lemma NothingWritten(p: Bytes, written: Bytes, kept: Bytes)
    ensures p[..0] == [] && written + p[..0] == written && kept + p[..0] == kept
  {
  }

  ghost predicate AllFit(files: set<File>, maxBytes: int, limit: nat) {
    forall f :: f in files ==> Fits(f, maxBytes, limit)
  }

  lemma RotationFits(was: Directory, now: Directory, maxBytes: int)
    requires maxBytes > 0 && now.Values <= was.Values + {EMPTY}
    ensures forall limit: nat :: AllFit(was.Values, maxBytes, limit) ==> AllFit(now.Values, maxBytes, limit)
  {
  }

  /** A write after a rotation conserves what both do. */
  lemma Conserved(was: Bytes, lost: Bytes, kept: Bytes, q: Bytes)
    requires was == lost + kept
    ensures was + q == lost + (kept + q)
  {
  }

  lemma AppendFits(path: string, dir: Directory, q: Bytes, maxBytes: int, limit: nat)
    requires path in dir && AllFit(dir.Values, maxBytes, limit)
    requires dir[path].data == [] || |dir[path].data| + |q| <= maxBytes
    requires |q| <= limit
    ensures AllFit(dir[path := Appended(dir[path], q)].Values, maxBytes, limit)
  {
    var now := dir[path := Appended(dir[path], q)];
    assert dir[path] in dir.Values && Fits(dir[path], maxBytes, limit);
    forall f | f in now.Values ensures Fits(f, maxBytes, limit) {
      var name :| name in now && now[name] == f;
      if name != path { assert dir[name] in dir.Values; }
    }
  }

  lemma {:induction false} NothingStuck(path: string, dir: Directory, i: int)
    requires i >= -1
    ensures StopsAt(path, dir, {}, i) == -1
    decreases i
  {
    if i >= 0 { NothingStuck(path, dir, i - 1); }
  }

  lemma SuffixOfSuffix(lost: Bytes, kept: Bytes, all: Bytes)
    requires IsSuffix(lost + kept, all)
    ensures IsSuffix(kept, all)
  {
  }

  lemma SuffixGrows(kept: Bytes, all: Bytes, q: Bytes)
    requires IsSuffix(kept, all)
    ensures IsSuffix(kept + q, all + q)
  {
  }

  /** A file this writer made holds at most maxBytes, or a single write of at most limit; no writes, no bytes. */
  predicate Fits(f: File, maxBytes: int, limit: nat) {
    f.ours ==>
      && (f.writes == 0 <==> f.data == [])
      && (|f.data| <= maxBytes || (f.writes == 1 && |f.data| <= limit))
  }

  lemma FirstReopening(path: string, found: Directory, backups: int, history: Bytes, highest: nat)
    requires forall n: nat :: n > highest ==> At(path, found, n).None?
    requires IsSuffix(Contents(path, found, highest + 1), history)
    ensures var now := Reopened(path, found, backups);
      && path in now && now[path] == Opened(path, found)[path]
      && NoneAbove(path, now, backups)
      && IsSuffix(Contents(path, now, Top(backups) + 1), history)
  {
    var now, n := Reopened(path, found, backups), Top(backups) + 1;
    StillThere(path, found, backups);
    FewerFilesAreASuffix(path, found, n, highest + 1);
    hide At, Reopened, Slot, Opened, Contents, IsSuffix;
    forall j: nat
      ensures At(path, now, j) ==
              if j > Top(backups) then None
              else if j == 0 && At(path, found, 0).None? then Some(EMPTY)
              else At(path, found, j)
    {
      PrunedAt(path, backups, Opened(path, found), j);
      OpenedAt(path, found, j);
      ReopenedIs(path, found, backups);
    }
    SameSlotsSameContents(path, found, now, n);
  }

  lemma StillThere(path: string, found: Directory, backups: int)
    ensures path in Reopened(path, found, backups)
    ensures Reopened(path, found, backups)[path] == Opened(path, found)[path]
  {
  }

  lemma ReopenedIs(path: string, found: Directory, backups: int)
    ensures Reopened(path, found, backups) == Pruned(path, backups, Opened(path, found))
  {
  }

  lemma FoundFits(path: string, found: Directory, backups: int, maxBytes: int)
    requires forall name :: name in found ==> !found[name].ours
    ensures maxBytes > 0 ==> forall limit: nat :: AllFit(Reopened(path, found, backups).Values, maxBytes, limit)
  {
  }

  class Writer {
    const path: string
    const maxBytes: int
    const backups: int
    /** The directory the log is in. */
    var dir: Directory
    var open: bool
    var size: nat
    /** Everything ever written to this log, by earlier writers too. */
    ghost var written: Bytes
    /** What Write was called with, call by call. */
    ghost var asked: seq<Bytes>

    ghost function Kept(): Bytes
      reads this
    {
      Contents(path, dir, Top(backups) + 1)
    }

    ghost predicate Valid()
      reads this
    {
      && (open ==> path in dir && size == |dir[path].data|)
      && NoneAbove(path, dir, backups)
      && IsSuffix(Kept(), written)
    }

    ghost predicate Bounded(limit: nat)
      reads this
    {
      AllFit(dir.Values, maxBytes, limit)
    }

    /** Writing len more bytes rotates first. */
    predicate Due(len: nat)
      reads this
    {
      maxBytes > 0 && size > 0 && size + len > maxBytes
    }

    /**
     * NewWriter on a directory whose chain, up to whatever number earlier settings allowed, is a suffix of the
     * log's history.
     */
    constructor (path: string, maxBytes: int, backups: int, found: Directory, ghost history: Bytes, ghost highest: nat)
      requires forall n: nat :: n > highest ==> At(path, found, n).None?
      requires IsSuffix(Contents(path, found, highest + 1), history)
      requires forall name :: name in found ==> !found[name].ours
      ensures Valid() && open && written == history && asked == []
      ensures this.path == path && this.maxBytes == maxBytes && this.backups == backups
      ensures dir == Reopened(path, found, backups)
      ensures maxBytes > 0 ==> forall limit: nat :: Bounded(limit)
    {
      this.path, this.maxBytes, this.backups := path, maxBytes, backups;
      dir := Opened(path, found);
      open, size := true, |Opened(path, found)[path].data|;
      written, asked := history, [];
      new;
      FirstReopening(path, found, backups, history, highest);
      FoundFits(path, found, backups, maxBytes);
      Prune();
    }

    method Close()
      modifies this`open
      ensures !open
    {
      open := false;
    }

    method Prune()
      modifies this`dir
      ensures dir == Pruned(path, backups, old(dir))
      ensures dir.Values <= old(dir.Values)
    {
      var entries := dir.Keys;
      while entries != {}
        invariant entries <= dir.Keys <= old(dir).Keys
        invariant forall name :: name in old(dir) ==>
                    (name in dir <==> name in entries || !Surplus(path, backups, name))
        invariant forall name :: name in dir ==> dir[name] == old(dir)[name]
        decreases |entries|
      {
        var name :| name in entries;
        entries := entries - {name};
        if HasSuffixOf(path, name) {
          var num, ok := BackupNumber(SuffixOf(path, name));
          if ok && num > backups {
            dir := dir - {name};
          }
        }
      }
    }

    /** Without backups the log is removed; that it is not there is no failure. */
    method Discard(stuck: set<nat>) returns (failed: bool)
      requires backups <= 0
      modifies this`dir
      ensures Stopped(path, old(dir), dir, backups, stuck, Stop(path, old(dir), backups, stuck))
      ensures failed <==> Stop(path, old(dir), backups, stuck) >= 0
    {
      failed := path in dir && 0 in stuck;
      if !failed { dir := dir - {path}; }
      forall j: nat | j > 0 ensures Slot(path, j) != path {
        if Slot(path, j) == Slot(path, 0) { SlotsDiffer(path, j, 0); }
      }
      SlotsAreSlots(path, backups, 0);
    }

    method ShiftBackups(stuck: set<nat>) returns (failed: bool)
      modifies this`dir
      ensures Stopped(path, old(dir), dir, backups, stuck, Stop(path, old(dir), backups, stuck))
      ensures failed <==> Stop(path, old(dir), backups, stuck) >= 0
    {
      hide *;
      if backups <= 0 {
        failed := Discard(stuck);
        return;
      }
      MidwayStarts(path, dir, backups, stuck);
      var i := backups - 1;
      while i >= 1
        invariant 0 <= i < backups && Midway(path, old(dir), dir, backups, stuck, i)
      {
        MidwayMoves(path, old(dir), dir, backups, stuck, i);
        if Slot(path, i) in dir {
          if i in stuck { return true; }
          dir := Renamed(dir, Slot(path, i), Slot(path, i + 1));
        }
        i := i - 1;
      }
      MidwayMoves(path, old(dir), dir, backups, stuck, 0);
      LogIsSlot(path);
      if path in dir {
        if 0 in stuck { return true; }
        dir := Renamed(dir, path, Slot(path, 1));
      }
      NothingLeft(path, old(dir), stuck);
      MidwayStops(path, old(dir), dir, backups, stuck, -1);
      return false;
    }

    /** Close, shift, reopen and prune: whatever fails, the log is open again unless it cannot be opened. */
    method Rotate(faults: Faults) returns (failed: bool)
      requires Valid() && open
      modifies this`dir, this`open, this`size
      ensures Valid()
      ensures open == !faults.noOpen
      ensures failed <==> !open || Stop(path, old(dir), backups, faults.moves) >= 0
      ensures RotatedTo(path, old(dir), dir, backups, Stop(path, old(dir), backups, faults.moves), open)
      ensures old(Kept()) == Lost(path, old(dir), backups, Stop(path, old(dir), backups, faults.moves)) + Kept()
      ensures dir.Values <= old(dir.Values) + {EMPTY}
    {
      hide Contents, Rotated, Lost, IsSuffix, RotatedTo, IsRotation, NoneAbove, IsSlot, Surplus, Slot;
      open := false;
      ghost var k := Stop(path, dir, backups, faults.moves);
      failed := ShiftBackups(faults.moves);
      ghost var mid := dir;
      StopsInRange(path, old(dir), backups, faults.moves);
      RotationConserves(path, old(dir), mid, backups, k);
      RotationStaysBelow(path, old(dir), mid, backups, k);
      SuffixOfSuffix(Lost(path, old(dir), backups, k), Kept(), written);
      if faults.noOpen {
        return true;
      }
      dir := Opened(path, dir);
      open, size := true, |dir[path].data|;
      Reopening(path, old(dir), mid, backups, k);
      Prune();
    }

    /** The write itself: as many bytes of p as there is room for. */
    method Append(p: Bytes, room: nat) returns (n: nat)
      requires Valid() && open
      modifies this`dir, this`size, this`written
      ensures Valid()
      ensures n == if |p| <= room then |p| else room
      ensures written == old(written) + p[..n]
      ensures Kept() == old(Kept()) + p[..n]
      ensures dir == old(dir)[path := Appended(old(dir)[path], p[..n])]
      ensures forall j: nat :: j > 0 ==> At(path, dir, j) == At(path, old(dir), j)
      ensures forall limit: nat ::
                old(Bounded(limit)) && |p| <= limit && (old(size) == 0 || old(size) + |p| <= maxBytes) ==>
                Bounded(limit)
    {
      n := if |p| <= room then |p| else room;
      ghost var f := Appended(dir[path], p[..n]);
      AppendsAtTheEnd(path, dir, f, p[..n], Top(backups) + 1);
      AppendKeepsBackups(path, dir, f, backups);
      SuffixGrows(Kept(), written, p[..n]);
      forall limit: nat | Bounded(limit) && |p| <= limit && (size == 0 || size + |p| <= maxBytes)
        ensures AllFit(dir[path := f].Values, maxBytes, limit)
      {
        AppendFits(path, dir, p[..n], maxBytes, limit);
      }
      hide Contents, IsSuffix, NoneAbove, At, AllFit;
      dir := dir[path := Appended(dir[path], p[..n])];
      size := size + n;
      written := written + p[..n];
    }

    /**
     * The chain gives up only what the topmost move landed on, gains what was taken of p at its young end, and
     * the file bound survives any write whose rotation, if one is due, moves everything. A write that fits, or finds
     * the log empty, touches nothing but the log; any other starts a new one and makes the old one backup 1.
     */
    method Write(p: Bytes, faults: Faults) returns (n: nat, failed: bool)
      requires Valid()
      modifies this
      ensures Valid()
      ensures open == (old(open) && !(old(Due(|p|)) && faults.noOpen))
      ensures n == if !open then 0 else if |p| <= faults.room then |p| else faults.room
      ensures failed <==> !open || n < |p|
      ensures written == old(written) + p[..n]
      ensures OthersKept(path, old(dir), dir, backups, old(open) && old(Due(|p|)) && open)
      ensures asked == old(asked) + [p]
      ensures var k := Stop(path, old(dir), backups, faults.moves);
        var rotates := old(open) && old(Due(|p|));
        && (old(Kept()) + p[..n] == (if rotates then Lost(path, old(dir), backups, k) else []) + Kept())
        && (forall j: nat :: j > 0 ==>
              At(path, dir, j) == if rotates then Rotated(path, old(dir), backups, k, j) else At(path, old(dir), j))
        && (open ==> dir[path].data == (if rotates && k < 0 then [] else old(dir[path].data)) + p[..n])
        && (forall limit: nat :: old(Bounded(limit)) && maxBytes > 0 && |p| <= limit && (rotates ==> k < 0) ==>
              Bounded(limit))
      ensures old(open) ==> path in old(dir)
      ensures old(open)
              && (maxBytes <= 0 || old(dir[path].data) == [] || |old(dir[path].data)| + |p| <= maxBytes) ==>
                && dir - {path} == old(dir) - {path}
                && path in dir && dir[path].data == old(dir[path].data) + p[..n]
      ensures old(open) && faults.moves == {} && !faults.noOpen
              && maxBytes > 0 && old(dir[path].data) != [] && |old(dir[path].data)| + |p| > maxBytes ==>
                && path in dir && dir[path].data == p[..n]
                && (forall j: nat :: 0 < j <= backups ==>
                      At(path, dir, j) == if At(path, old(dir), j - 1).Some? then At(path, old(dir), j - 1)
                                          else if j == backups then At(path, old(dir), j) else None)
    {
      asked := asked + [p];
      OthersKeptAtFirst(path, dir, backups);
      if !open {
        NothingWritten(p, written, Kept());
        return 0, true;
      }
      FullRotation(path, dir, backups);
      hide OthersKept, IsSlot, Surplus;
      hide Contents, Rotated, Lost, IsSuffix, RotatedTo, NoneAbove, At, Stop, Slot, AllFit;
      ghost var k := Stop(path, dir, backups, faults.moves);
      ghost var was, kept, lost := dir, Kept(), [];
      ghost var start, due := dir, Due(|p|);
      if maxBytes > 0 && size > 0 && size + |p| > maxBytes {
        lost := Lost(path, was, backups, k);
        var rotateFailed := Rotate(faults);
        RotationFits(was, dir, maxBytes);
        RotatedBackups(path, was, dir, backups, k, open);
        if rotateFailed && !open {
          NothingWritten(p, written, Kept());
          return 0, true;
        }
        StopsInRange(path, was, backups, faults.moves);
        LogAfter(path, was, dir, backups, k);
      }
      assert kept == lost + Kept();
      ghost var before := Kept();
      ghost var mid := dir;
      n := Append(p, faults.room);
      AppendKeepsOthers(path, start, mid, dir[path], backups, due);
      Conserved(kept, lost, before, p[..n]);
      failed := n < |p|;
    }
  }

  // ---------------------------------------------------------------- feeding the writer

  const NEWLINE: Byte := 10
  const MAX_LOG_LINE_BYTES: nat := 64 * 1024

  /** bufio's ReadSlice on what the pipe still holds: up to the first newline, a full buffer, or the end. */
  function SliceLength(rest: Bytes, room: nat): (n: nat)
    ensures n <= |rest| && n <= room
    ensures n > 0 ==> NEWLINE !in rest[..n - 1]
    ensures n == |rest| || n == room || (n > 0 && rest[n - 1] == NEWLINE)
    ensures rest != [] && room > 0 ==> n > 0
  {
    if rest == [] || room == 0 then 0
    else if rest[0] == NEWLINE then 1
    else
      var m := SliceLength(rest[1..], room - 1);
      assert m > 0 ==> rest[..m] == [rest[0]] + rest[1..][..m - 1];
      assert m > 0 ==> rest[m] == rest[1..][m - 1];
      1 + m
  }

  /** What a read that gets no newline and no full buffer means: the pipe has ended. */
  predicate AtEnd(rest: Bytes) {
    var n := SliceLength(rest, MAX_LOG_LINE_BYTES);
    n < MAX_LOG_LINE_BYTES && (n == 0 || rest[n - 1] != NEWLINE)
  }

  /** The pieces ReadSlice cuts the pipe into. */
  function Slices(pipe: Bytes): seq<Bytes> {
    if pipe == [] then []
    else
      var n := SliceLength(pipe, MAX_LOG_LINE_BYTES);
      [pipe[..n]] + Slices(pipe[n..])
  }

  function Joined(lines: seq<Bytes>): Bytes {
    if lines == [] then [] else lines[0] + Joined(lines[1..])
  }

  lemma JoinedOnto(first: Bytes, later: seq<Bytes>)
    ensures Joined([first] + later) == first + Joined(later)
  {
    assert ([first] + later)[1..] == later;
  }

  /** One line, or a full buffer of a longer one; only the last piece may be neither. */
  predicate IsPiece(line: Bytes, last: bool) {
    && 0 < |line| <= MAX_LOG_LINE_BYTES && NEWLINE !in line[..|line| - 1]
    && (line[|line| - 1] == NEWLINE || |line| == MAX_LOG_LINE_BYTES || last)
  }

  /** The pieces are lines as far as the buffer allows, and concatenate to the pipe's bytes. */
  lemma {:induction false} SlicesJoin(pipe: Bytes)
    ensures Joined(Slices(pipe)) == pipe
    ensures forall i :: 0 <= i < |Slices(pipe)| ==> IsPiece(Slices(pipe)[i], i == |Slices(pipe)| - 1)
    decreases |pipe|
  {
    if pipe != [] {
      var n := SliceLength(pipe, MAX_LOG_LINE_BYTES);
      var first, later := pipe[..n], Slices(pipe[n..]);
      SlicesJoin(pipe[n..]);
      assert pipe == first + pipe[n..] && Slices(pipe) == [first] + later;
      assert n < |pipe| ==> later != [];
      hide Slices, SliceLength, Joined;
      assert first[..n - 1] == pipe[..n - 1];
      assert IsPiece(first, later == []);
      JoinedOnto(first, later);
    }
  }

  lemma EndReadsAll(rest: Bytes)
    ensures AtEnd(rest) ==> SliceLength(rest, MAX_LOG_LINE_BYTES) == |rest|
    ensures !AtEnd(rest) ==> SliceLength(rest, MAX_LOG_LINE_BYTES) > 0
  {
  }

  lemma NothingFollows(pipe: Bytes)
    ensures pipe[..|pipe|] == pipe && Slices(pipe[|pipe|..]) == []
  {
  }

  /** The files a log with content cur is cut into by writes that all succeed, oldest first. */
  function Packed(cur: Bytes, lines: seq<Bytes>, maxBytes: int): (files: seq<Bytes>)
    ensures |files| > 0
    decreases |lines|
  {
    if lines == [] then [cur]
    else if maxBytes > 0 && cur != [] && |cur| + |lines[0]| > maxBytes then
      [cur] + Packed(lines[0], lines[1..], maxBytes)
    else Packed(cur + lines[0], lines[1..], maxBytes)
  }

  /** The next file begins with a line that this one had no more room for. */
  predicate IsFull(file: Bytes, next: Bytes, lines: seq<Bytes>, maxBytes: int) {
    exists i :: 0 <= i < |lines| && lines[i] <= next && 0 < maxBytes < |file| + |lines[i]|
  }

  lemma FullLater(file: Bytes, next: Bytes, lines: seq<Bytes>, maxBytes: int)
    requires lines != [] && IsFull(file, next, lines[1..], maxBytes)
    ensures IsFull(file, next, lines, maxBytes)
  {
    var i :| 0 <= i < |lines[1..]| && lines[1..][i] <= next && 0 < maxBytes < |file| + |lines[1..][i]|;
    assert lines[i + 1] == lines[1..][i];
  }

  lemma {:induction false} PackedStarts(cur: Bytes, lines: seq<Bytes>, maxBytes: int)
    ensures cur <= Packed(cur, lines, maxBytes)[0]
    decreases |lines|
  {
    if lines != [] && !(maxBytes > 0 && cur != [] && |cur| + |lines[0]| > maxBytes) {
      PackedStarts(cur + lines[0], lines[1..], maxBytes);
    }
  }

  /** No line is lost or moved, and no file is closed that had room for the next line. */
  ghost predicate IsTight(cur: Bytes, lines: seq<Bytes>, maxBytes: int, files: seq<Bytes>) {
    && Joined(files) == cur + Joined(lines)
    && forall i :: 0 <= i < |files| - 1 ==> files[i] != [] && IsFull(files[i], files[i + 1], lines, maxBytes)
  }

  lemma TightLater(cur: Bytes, lines: seq<Bytes>, maxBytes: int, files: seq<Bytes>)
    requires lines != [] && IsTight(cur + lines[0], lines[1..], maxBytes, files)
    ensures IsTight(cur, lines, maxBytes, files)
  {
    forall i | 0 <= i < |files| - 1 ensures IsFull(files[i], files[i + 1], lines, maxBytes) {
      FullLater(files[i], files[i + 1], lines, maxBytes);
    }
    assert cur + lines[0] + Joined(lines[1..]) == cur + Joined(lines);
  }

  lemma TightCut(cur: Bytes, lines: seq<Bytes>, maxBytes: int, files: seq<Bytes>)
    requires lines != [] && IsTight(lines[0], lines[1..], maxBytes, files) && files != [] && lines[0] <= files[0]
    requires cur != [] && 0 < maxBytes < |cur| + |lines[0]|
    ensures IsTight(cur, lines, maxBytes, [cur] + files)
  {
    forall i | 0 <= i < |files| - 1 ensures IsFull(files[i], files[i + 1], lines, maxBytes) {
      FullLater(files[i], files[i + 1], lines, maxBytes);
    }
    assert IsFull(cur, files[0], lines, maxBytes);
    JoinedOnto(cur, files);
  }

  lemma {:induction false} PackedIsTight(cur: Bytes, lines: seq<Bytes>, maxBytes: int)
    ensures IsTight(cur, lines, maxBytes, Packed(cur, lines, maxBytes))
    decreases |lines|
  {
    if lines == [] {
      assert [cur][1..] == [];
    } else {
      hide IsTight, Joined;
      if maxBytes > 0 && cur != [] && |cur| + |lines[0]| > maxBytes {
        PackedIsTight(lines[0], lines[1..], maxBytes);
        PackedStarts(lines[0], lines[1..], maxBytes);
        TightCut(cur, lines, maxBytes, Packed(lines[0], lines[1..], maxBytes));
      } else {
        PackedIsTight(cur + lines[0], lines[1..], maxBytes);
        TightLater(cur, lines, maxBytes, Packed(cur + lines[0], lines[1..], maxBytes));
      }
    }
  }

  /** The backups hold the files that were closed last, as many of both as there are. */
  ghost predicate HoldsClosed(path: string, dir: Directory, backups: int, closed: seq<Bytes>) {
    forall j: nat :: 0 < j <= backups && j <= |closed| ==>
      At(path, dir, j).Some? && At(path, dir, j).value.data == closed[|closed| - j]
  }

  /** What one write that succeeds does to the log, as Write ensures it. */
  ghost predicate WroteWell(path: string, was: Directory, now: Directory, maxBytes: int, backups: int, p: Bytes) {
    && path in was && path in now
    && if maxBytes <= 0 || was[path].data == [] || |was[path].data| + |p| <= maxBytes then
         now - {path} == was - {path} && now[path].data == was[path].data + p
       else
         && now[path].data == p
         && forall j: nat :: 0 < j <= backups ==>
              At(path, now, j) == if At(path, was, j - 1).Some? then At(path, was, j - 1)
                                  else if j == backups then At(path, was, j) else None
  }

  lemma SameBackups(path: string, was: Directory, now: Directory, j: nat)
    requires now - {path} == was - {path} && j > 0
    ensures At(path, now, j) == At(path, was, j)
  {
    if Slot(path, j) == Slot(path, 0) { SlotsDiffer(path, j, 0); }
    assert Slot(path, j) in now <==> Slot(path, j) in now - {path};
    assert Slot(path, j) in was <==> Slot(path, j) in was - {path};
  }

  /** rest are the lines of all yet to come, closed the files they have closed so far. */
  ghost predicate PackedSoFar(path: string, first: Bytes, dir: Directory, maxBytes: int, backups: int,
                              all: seq<Bytes>, rest: seq<Bytes>, closed: seq<Bytes>) {
    && path in dir && HoldsClosed(path, dir, backups, closed)
    && Packed(first, all, maxBytes) == closed + Packed(dir[path].data, rest, maxBytes)
  }

  /** A write takes the first line of those to come, and may close a file. */
  lemma PackedOn(path: string, first: Bytes, was: Directory, now: Directory, maxBytes: int, backups: int,
                 all: seq<Bytes>, rest: seq<Bytes>, closed: seq<Bytes>) returns (more: seq<Bytes>)
    requires rest != [] && PackedSoFar(path, first, was, maxBytes, backups, all, rest, closed)
    requires WroteWell(path, was, now, maxBytes, backups, rest[0])
    ensures PackedSoFar(path, first, now, maxBytes, backups, all, rest[1..], more)
  {
    if maxBytes <= 0 || was[path].data == [] || |was[path].data| + |rest[0]| <= maxBytes {
      more := closed;
      hide At, Slot;
      forall j: nat | 0 < j ensures At(path, now, j) == At(path, was, j) { SameBackups(path, was, now, j); }
    } else {
      more := closed + [was[path].data];
      HoldsOneMore(path, was, now, maxBytes, backups, rest[0], closed);
      hide HoldsClosed, WroteWell;
      assert closed + ([was[path].data] + Packed(rest[0], rest[1..], maxBytes))
          == more + Packed(rest[0], rest[1..], maxBytes);
    }
  }

  /** A write that rotates moves the log to the front of the backups. */
  lemma HoldsOneMore(path: string, was: Directory, now: Directory, maxBytes: int, backups: int, p: Bytes,
                     closed: seq<Bytes>)
    requires HoldsClosed(path, was, backups, closed) && WroteWell(path, was, now, maxBytes, backups, p)
    requires maxBytes > 0 && was[path].data != [] && |was[path].data| + |p| > maxBytes
    ensures HoldsClosed(path, now, backups, closed + [was[path].data])
  {
    var more := closed + [was[path].data];
    assert At(path, was, 0) == Some(was[path]) by { LogIsSlot(path); }
    hide At, Slot;
    forall j: nat | 0 < j <= backups && j <= |more|
      ensures At(path, now, j).Some? && At(path, now, j).value.data == more[|more| - j]
    {
      if j > 1 { assert At(path, was, j - 1).Some? && At(path, was, j - 1).value.data == closed[|closed| - (j - 1)]; }
    }
  }

  lemma CalmNeverStops(path: string, dir: Directory, backups: int)
    ensures Stop(path, dir, backups, {}) == -1
  {
    NothingStuck(path, dir, Last(backups));
  }

  /** No rename, open or write fails. */
  ghost predicate IsCalm(faults: nat -> Faults) {
    forall i :: faults(i).moves == {} && !faults(i).noOpen && faults(i).room >= MAX_LOG_LINE_BYTES
  }

  /** One piece goes to the writer; closed are the files all pieces so far have closed. */
  method Feed(sink: Writer, line: Bytes, fault: Faults, ghost calm: bool, ghost first: Bytes, ghost all: seq<Bytes>,
              ghost rest: seq<Bytes>, ghost closed: seq<Bytes>) returns (n: nat, failed: bool, ghost more: seq<Bytes>)
    requires sink.Valid() && rest != [] && rest[0] == line
    requires calm ==> sink.open && fault.moves == {} && !fault.noOpen && |line| <= fault.room
    requires calm ==> PackedSoFar(sink.path, first, sink.dir, sink.maxBytes, sink.backups, all, rest, closed)
    modifies sink
    ensures sink.Valid() && n <= |line|
    ensures sink.written == old(sink.written) + line[..n] && sink.asked == old(sink.asked) + [line]
    ensures failed <==> !sink.open || n < |line|
    ensures old(sink.open) && !fault.noOpen ==> sink.open && (|line| <= fault.room ==> n == |line|)
    ensures forall limit: nat ::
              old(sink.Bounded(limit)) && sink.maxBytes > 0 && |line| <= limit && fault.moves == {} ==>
              sink.Bounded(limit)
    ensures calm ==> sink.open
    ensures calm ==> PackedSoFar(sink.path, first, sink.dir, sink.maxBytes, sink.backups, all, rest[1..], more)
  {
    hide *;
    ghost var was := sink.dir;
    more := closed;
    CalmNeverStops(sink.path, sink.dir, sink.backups);
    n, failed := sink.Write(line, fault);
    if calm {
      WholeLine(line, n);
      Wrote(sink.path, was, sink.dir, sink.maxBytes, sink.backups, line);
      more := PackedOn(sink.path, first, was, sink.dir, sink.maxBytes, sink.backups, all, rest, closed);
    }
  }

  /**
   * pipe is all the child writes before the pipe ends, in an error if broken. faults(i) is what happens during
   * the i-th write. Unless a write fails, the pieces are written one by one and every byte reaches the log.
   */
  method DrainStream(sink: Writer, pipe: Bytes, broken: bool, faults: nat -> Faults)
      returns (failed: bool, ghost taken: nat, ghost gaveUp: bool)
    requires sink.Valid()
    modifies sink
    ensures sink.Valid()
    ensures taken <= |pipe| && sink.written == old(sink.written) + pipe[..taken]
    ensures !gaveUp ==> taken == |pipe| && sink.asked == old(sink.asked) + Slices(pipe)
    ensures failed <==> gaveUp || broken
    ensures old(sink.open) && (forall i :: !faults(i).noOpen && faults(i).room >= MAX_LOG_LINE_BYTES) ==> !gaveUp
    ensures (forall i :: faults(i).moves == {}) && sink.maxBytes > 0 && old(sink.Bounded(MAX_LOG_LINE_BYTES)) ==>
              sink.Bounded(MAX_LOG_LINE_BYTES)
    ensures old(sink.open) && IsCalm(faults) ==>
              && sink.path in old(sink.dir) && sink.path in sink.dir
              && var files := Packed(old(sink.dir[sink.path].data), Slices(pipe), sink.maxBytes);
              && sink.dir[sink.path].data == files[|files| - 1]
              && HoldsClosed(sink.path, sink.dir, sink.backups, files[..|files| - 1])
  {
    hide *;
    assert pipe[0..] == pipe && sink.written == sink.written + pipe[..0];
    taken, gaveUp := 0, false;
    ghost var before, asked := sink.written, sink.asked;
    ghost var steady := sink.open && forall i :: !faults(i).noOpen && faults(i).room >= MAX_LOG_LINE_BYTES;
    ghost var bounded := (forall i :: faults(i).moves == {}) && sink.maxBytes > 0 && sink.Bounded(MAX_LOG_LINE_BYTES);
    ghost var calm := sink.open && IsCalm(faults);
    ghost var first: Bytes := [];
    ghost var closed: seq<Bytes> := [];
    if calm {
      PackedStart(sink, Slices(pipe));
      first := sink.dir[sink.path].data;
    }
    var at, writes := 0, 0;
    while true
      invariant sink.Valid() && at <= |pipe| && taken == at && !gaveUp
      invariant sink.written == before + pipe[..at]
      invariant sink.asked + Slices(pipe[at..]) == asked + Slices(pipe)
      invariant steady ==> sink.open
      invariant bounded ==> sink.Bounded(MAX_LOG_LINE_BYTES)
      invariant calm ==> sink.open
      invariant calm ==> PackedSoFar(sink.path, first, sink.dir, sink.maxBytes, sink.backups,
                                     Slices(pipe), Slices(pipe[at..]), closed)
      decreases |pipe| - at
    {
      var rest := pipe[at..];
      var line := rest[..SliceLength(rest, MAX_LOG_LINE_BYTES)];
      if |line| > 0 {
        if calm { CalmAt(faults, writes); }
        NextSlice(pipe, at, |line|);
        var n, writeFailed;
        n, writeFailed, closed :=
          Feed(sink, line, faults(writes), calm, first, Slices(pipe), Slices(pipe[at..]), closed);
        Onward(before, pipe, at, line, n);
        taken := at + n;
        if writeFailed {
          gaveUp := true;
          return true, taken, gaveUp;
        }
      }
      at, writes := at + |line|, writes + 1;
      EndReadsAll(rest);
      if AtEnd(rest) {
        NothingFollows(pipe);
        if calm {
          PackedEnds(sink.path, first, sink.dir, sink.maxBytes, sink.backups, Slices(pipe), closed);
        }
        return broken, taken, gaveUp;
      }
    }
  }

  lemma PackedStart(sink: Writer, lines: seq<Bytes>)
    requires sink.Valid() && sink.open
    ensures sink.path in sink.dir
    ensures PackedSoFar(sink.path, sink.dir[sink.path].data, sink.dir, sink.maxBytes, sink.backups, lines, lines, [])
  {
  }

  lemma CalmAt(faults: nat -> Faults, i: nat)
    requires IsCalm(faults)
    ensures faults(i).moves == {} && !faults(i).noOpen && faults(i).room >= MAX_LOG_LINE_BYTES
  {
  }

  lemma WholeLine(line: Bytes, n: nat)
    requires n == |line|
    ensures line[..n] == line
  {
  }

  lemma Wrote(path: string, was: Directory, now: Directory, maxBytes: int, backups: int, p: Bytes)
    requires path in was && path in now
    requires maxBytes <= 0 || was[path].data == [] || |was[path].data| + |p| <= maxBytes ==>
      now - {path} == was - {path} && now[path].data == was[path].data + p
    requires maxBytes > 0 && was[path].data != [] && |was[path].data| + |p| > maxBytes ==>
      && now[path].data == p
      && forall j: nat :: 0 < j <= backups ==>
           At(path, now, j) == if At(path, was, j - 1).Some? then At(path, was, j - 1)
                               else if j == backups then At(path, was, j) else None
    ensures WroteWell(path, was, now, maxBytes, backups, p)
  {
    hide At;
  }

  lemma PackedEnds(path: string, first: Bytes, dir: Directory, maxBytes: int, backups: int, all: seq<Bytes>,
                   closed: seq<Bytes>)
    requires PackedSoFar(path, first, dir, maxBytes, backups, all, [], closed)
    ensures var files := Packed(first, all, maxBytes);
      && path in dir && dir[path].data == files[|files| - 1]
      && HoldsClosed(path, dir, backups, files[..|files| - 1])
  {
    assert (closed + [dir[path].data])[..|closed|] == closed;
  }

  lemma NextSlice(pipe: Bytes, at: nat, n: nat)
    requires at <= |pipe| && n == SliceLength(pipe[at..], MAX_LOG_LINE_BYTES) && n > 0
    ensures at + n <= |pipe| && Slices(pipe[at..]) == [pipe[at..][..n]] + Slices(pipe[at + n..])
  {
    assert pipe[at..][n..] == pipe[at + n..];
  }

  lemma Onward(before: Bytes, pipe: Bytes, at: nat, line: Bytes, n: nat)
    requires at <= |pipe| && line <= pipe[at..] && n <= |line|
    ensures before + pipe[..at] + line[..n] == before + pipe[..at + n]
  {
  }
}
