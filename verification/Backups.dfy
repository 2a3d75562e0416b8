/** internal/logrotate/writer.go: the backup chain of a log file. */
module Backups {
  import opened Common

  newtype Byte = x: int | 0 <= x < 256
  type Bytes = seq<Byte>

  /** A log file: its bytes, how many writes of this writer left bytes in it, whether this writer made it. */
  datatype File = File(data: Bytes, writes: nat, ours: bool)

  type Directory = map<string, File>

  // ---------------------------------------------------------------- names

  predicate IsDigit(c: char) {
    '0' <= c <= '9'
  }

  predicate AllDigits(s: string) {
    forall c :: c in s ==> IsDigit(c)
  }

  function Digit(d: nat): (c: char)
    requires d < 10
    ensures IsDigit(c)
  {
    ('0' as int + d) as char
  }

  function DigitValue(c: char): nat
    requires IsDigit(c)
  {
    c as int - '0' as int
  }

  /** %d */
  function Decimal(n: nat): (s: string)
    ensures s != ""
  {
    if n < 10 then [Digit(n)] else Decimal(n / 10) + [Digit(n % 10)]
  }

  function Value(s: string): nat
    requires AllDigits(s)
  {
    if s == "" then 0 else
    var i := |s| - 1;
    assert s[i] in s;
    Value(s[..i]) * 10 + DigitValue(s[i])
  }

  /** The number a suffix stands for; zero is no backup number. */
  function NumberIn(s: string): Option<nat> {
    if AllDigits(s) && Value(s) != 0 then Some(Value(s)) else None
  }

  lemma ValueExtends(s: string, c: char)
    requires AllDigits(s) && IsDigit(c)
    ensures AllDigits(s + [c]) && Value(s + [c]) == Value(s) * 10 + DigitValue(c)
  {
  }

  lemma {:induction false} DecimalReads(n: nat)
    ensures AllDigits(Decimal(n)) && Value(Decimal(n)) == n
  {
    if n < 10 {
      assert Value("") == 0 && "" + [Digit(n)] == [Digit(n)];
      ValueExtends("", Digit(n));
    } else {
      DecimalReads(n / 10);
      ValueExtends(Decimal(n / 10), Digit(n % 10));
    }
  }

  predicate IsPadding(s: string) {
    forall c :: c in s ==> c == '0'
  }

  /** A digit string is the decimal form of its value behind zeros. */
  lemma {:induction false} DigitsArePaddedDecimal(s: string) returns (k: nat)
    requires AllDigits(s) && Value(s) != 0
    ensures k <= |s| && IsPadding(s[..k]) && s[k..] == Decimal(Value(s))
  {
    var i := |s| - 1;
    var front, last := s[..i], s[i];
    assert last in s && s == front + [last];
    ValueExtends(front, last);
    if Value(front) == 0 {
      k := i;
      ZeroIsPadding(front);
      assert s[k..] == [last];
    } else {
      k := DigitsArePaddedDecimal(front);
      assert s[..k] == front[..k];
      assert s[k..] == front[k..] + [last];
    }
  }

  lemma {:induction false} ZeroIsPadding(s: string)
    requires AllDigits(s) && Value(s) == 0
    ensures IsPadding(s)
  {
    if s != "" {
      var i := |s| - 1;
      assert s[i] in s && s == s[..i] + [s[i]];
      ZeroIsPadding(s[..i]);
    }
  }

  lemma {:induction false} PaddingKeepsValue(zeros: string, s: string)
    requires IsPadding(zeros) && AllDigits(s)
    ensures AllDigits(zeros + s) && Value(zeros + s) == Value(s)
    decreases |zeros| + |s|
  {
    if s != "" {
      var i := |s| - 1;
      assert s[i] in s;
      PaddingKeepsValue(zeros, s[..i]);
      assert zeros + s == (zeros + s[..i]) + [s[i]] && s == s[..i] + [s[i]];
      ValueExtends(zeros + s[..i], s[i]);
      ValueExtends(s[..i], s[i]);
    } else if zeros != "" {
      var i := |zeros| - 1;
      assert zeros[i] in zeros && forall c :: c in zeros[..i] ==> c in zeros;
      PaddingKeepsValue(zeros[..i], "");
      assert zeros + "" == zeros[..i] + "" + [zeros[i]];
      ValueExtends(zeros[..i] + "", zeros[i]);
    }
  }

  /** A suffix is taken for backup n exactly when it is n in decimal, perhaps behind zeros. */
  lemma NumberInIff(s: string, n: nat)
    requires n > 0
    ensures NumberIn(s) == Some(n) <==> exists k :: 0 <= k <= |s| && IsPadding(s[..k]) && s[k..] == Decimal(n)
  {
    if NumberIn(s) == Some(n) {
      var k := DigitsArePaddedDecimal(s);
    }
    if k :| 0 <= k <= |s| && IsPadding(s[..k]) && s[k..] == Decimal(n) {
      DecimalReads(n);
      PaddingKeepsValue(s[..k], s[k..]);
      assert s == s[..k] + s[k..];
    }
  }

  method BackupNumber(s: string) returns (num: nat, ok: bool)
    ensures NumberIn(s) == if ok then Some(num) else None
  {
    if s == "" {
      return 0, false;
    }
    num := 0;
    var i := 0;
    while i < |s|
      invariant 0 <= i <= |s| && AllDigits(s[..i]) && num == Value(s[..i])
    {
      if s[i] < '0' || s[i] > '9' {
        assert s[i] in s;
        return 0, false;
      }
      ValueExtends(s[..i], s[i]);
      assert s[..i] + [s[i]] == s[..i + 1];
      num := num * 10 + DigitValue(s[i]);
      i := i + 1;
    }
    assert s[..i] == s;
    if num == 0 {
      return 0, false;
    }
    return num, true;
  }

  function BackupPath(path: string, num: nat): string {
    path + "." + Decimal(num)
  }

  /** The files of the chain: 0 is the current log, n > 0 the n-th backup. */
  function Slot(path: string, n: nat): string {
    if n == 0 then path else BackupPath(path, n)
  }

  /** The newest backup of app.log is app.log.1. */
  lemma NewestBackup(path: string)
    ensures Slot(path, 0) == path && Slot(path, 1) == path + ".1"
  {
    assert Decimal(1) == "1";
    assert path + "." + "1" == path + ".1";
  }

  predicate HasSuffixOf(path: string, name: string) {
    path + "." <= name
  }

  function SuffixOf(path: string, name: string): string
    requires HasSuffixOf(path, name)
  {
    name[|path| + 1..]
  }

  /** prune takes name for a backup beyond the configured count. */
  predicate Surplus(path: string, backups: int, name: string) {
    HasSuffixOf(path, name) && NumberIn(SuffixOf(path, name)).Some? && NumberIn(SuffixOf(path, name)).value > backups
  }

  predicate IsSlot(path: string, name: string) {
    || name == path
    || (HasSuffixOf(path, name) && NumberIn(SuffixOf(path, name)).Some?
        && SuffixOf(path, name) == Decimal(NumberIn(SuffixOf(path, name)).value))
  }

  lemma SlotNumber(path: string, n: nat)
    requires n > 0
    ensures HasSuffixOf(path, Slot(path, n)) && SuffixOf(path, Slot(path, n)) == Decimal(n)
    ensures NumberIn(SuffixOf(path, Slot(path, n))) == Some(n)
  {
    DecimalReads(n);
    var name := Slot(path, n);
    assert name == (path + ".") + Decimal(n);
    assert name[|path| + 1..] == Decimal(n);
  }

  lemma SlotsAreSlots(path: string, backups: int, n: nat)
    ensures IsSlot(path, Slot(path, n))
    ensures Surplus(path, backups, Slot(path, n)) <==> n > 0 && n > backups
  {
    if n > 0 { SlotNumber(path, n); }
  }

  lemma SlotsDiffer(path: string, m: nat, n: nat)
    requires Slot(path, m) == Slot(path, n)
    ensures m == n
  {
    if m > 0 { SlotNumber(path, m); }
    if n > 0 { SlotNumber(path, n); }
  }

  // ---------------------------------------------------------------- the chain

  function At(path: string, dir: Directory, n: nat): Option<File> {
    if Slot(path, n) in dir then Some(dir[Slot(path, n)]) else None
  }

  function Data(f: Option<File>): Bytes {
    if f.Some? then f.value.data else []
  }

  /** What the files below n hold, read from the highest number down to the current log. */
  function Contents(path: string, dir: Directory, n: nat): Bytes {
    if n == 0 then [] else Data(At(path, dir, n - 1)) + Contents(path, dir, n - 1)
  }

  predicate IsSuffix(s: Bytes, t: Bytes) {
    |s| <= |t| && t[|t| - |s|..] == s
  }

  /** The highest file the shift refuses to move, -1 when it moves all: stuck are the numbers whose rename fails. */
  function StopsAt(path: string, dir: Directory, stuck: set<nat>, i: int): (k: int)
    requires i >= -1
    ensures -1 <= k <= i
    decreases i
  {
    if i < 0 then -1
    else if At(path, dir, i).Some? && i in stuck then i
    else StopsAt(path, dir, stuck, i - 1)
  }

  /** File j once those above k have moved up by one. */
  function After(path: string, dir: Directory, backups: nat, k: int, j: nat): Option<File>
    requires k >= -1
  {
    if j <= k || j > backups then At(path, dir, j)
    else if j == backups then
      if k < backups - 1 && At(path, dir, j - 1).Some? then At(path, dir, j - 1) else At(path, dir, j)
    else if j == k + 1 then None
    else At(path, dir, j - 1)
  }

  /** now is dir with the files above k moved up and every other name as it was. */
  ghost predicate Shifted(path: string, dir: Directory, now: Directory, backups: nat, k: int)
    requires k >= -1
  {
    && (forall j: nat :: At(path, now, j) == After(path, dir, backups, k, j))
    && forall name :: !IsSlot(path, name) ==>
         (name in now <==> name in dir) && (name in dir ==> now[name] == dir[name])
  }

  /** What a shift that stopped at k destroys: the file the highest move lands on, if there is such a move. */
  function Destroyed(path: string, dir: Directory, backups: nat, k: int): Bytes {
    if 0 < backups && k < backups - 1 && At(path, dir, backups - 1).Some? then Data(At(path, dir, backups)) else []
  }

  function Renamed(dir: Directory, from: string, to: string): Directory
    requires from in dir
  {
    (dir - {from})[to := dir[from]]
  }

  lemma RenamedAt(path: string, dir: Directory, i: nat, j: nat)
    requires At(path, dir, i).Some?
    ensures At(path, Renamed(dir, Slot(path, i), Slot(path, i + 1)), j) ==
            (if j == i then None else if j == i + 1 then At(path, dir, i) else At(path, dir, j))
  {
    if Slot(path, i) == Slot(path, j) { SlotsDiffer(path, i, j); }
    if Slot(path, i + 1) == Slot(path, j) { SlotsDiffer(path, i + 1, j); }
    if Slot(path, i + 1) == Slot(path, i) { SlotsDiffer(path, i + 1, i); }
  }

  lemma RenamedElsewhere(path: string, dir: Directory, i: nat, name: string)
    requires At(path, dir, i).Some? && !IsSlot(path, name)
    ensures var next := Renamed(dir, Slot(path, i), Slot(path, i + 1));
      (name in next <==> name in dir) && (name in dir ==> next[name] == dir[name])
  {
    SlotsAreSlots(path, 0, i);
    SlotsAreSlots(path, 0, i + 1);
    hide IsSlot, Slot;
  }

  /** One more file moved up. */
  lemma ShiftOne(path: string, dir: Directory, now: Directory, backups: nat, i: nat)
    requires i < backups && Shifted(path, dir, now, backups, i) && Slot(path, i) in now
    ensures Shifted(path, dir, Renamed(now, Slot(path, i), Slot(path, i + 1)), backups, i - 1)
  {
    var next := Renamed(now, Slot(path, i), Slot(path, i + 1));
    assert At(path, now, i).Some?;
    hide Slot, IsSlot, Renamed, At;
    assert At(path, now, i) == At(path, dir, i);
    forall j: nat ensures At(path, next, j) == After(path, dir, backups, i - 1, j) {
      RenamedAt(path, now, i, j);
    }
    forall name | !IsSlot(path, name)
      ensures (name in next <==> name in dir) && (name in dir ==> next[name] == dir[name])
    {
      RenamedElsewhere(path, now, i, name);
    }
  }

  /** A gap in the numbering is left where it is. */
  lemma ShiftGap(path: string, dir: Directory, now: Directory, backups: nat, i: nat)
    requires i < backups && Shifted(path, dir, now, backups, i) && Slot(path, i) !in now
    ensures Shifted(path, dir, now, backups, i - 1)
  {
    assert At(path, now, i).None?;
    hide Slot, IsSlot, At;
    assert At(path, now, i) == At(path, dir, i);
  }

  /** The shift sees at i what was there at first, so it stops where StopsAt says. */
  lemma StopsHere(path: string, dir: Directory, now: Directory, backups: nat, stuck: set<nat>, i: nat)
    requires i < backups && Shifted(path, dir, now, backups, i)
    ensures StopsAt(path, dir, stuck, i) ==
            if Slot(path, i) in now && i in stuck then i else StopsAt(path, dir, stuck, i - 1)
  {
    assert Slot(path, i) in now <==> At(path, now, i).Some?;
    hide Slot, IsSlot, At;
    assert At(path, now, i) == At(path, dir, i);
  }

  lemma {:induction false} Below(path: string, dir: Directory, now: Directory, backups: nat, k: int, n: nat)
    requires -1 <= k < backups && Shifted(path, dir, now, backups, k)
    requires n <= k + 1
    ensures Contents(path, now, n) == Contents(path, dir, n)
  {
    hide At, IsSlot;
    if n > 0 { Below(path, dir, now, backups, k, n - 1); }
  }

  lemma {:induction false} Above(path: string, dir: Directory, now: Directory, backups: nat, k: int, n: nat)
    requires -1 <= k < backups && Shifted(path, dir, now, backups, k)
    requires k + 1 <= n < backups
    ensures Contents(path, now, n + 1) == Contents(path, dir, n)
  {
    hide At, IsSlot;
    if n == k + 1 {
      Below(path, dir, now, backups, k, n);
    } else {
      Above(path, dir, now, backups, k, n - 1);
      assert At(path, now, n) == At(path, dir, n - 1);
    }
  }

  /** Wherever the shift stops, the chain loses what the topmost move landed on, from its old end, and nothing else. */
  lemma ShiftConserves(path: string, dir: Directory, now: Directory, backups: nat, k: int)
    requires 0 < backups && -1 <= k < backups && Shifted(path, dir, now, backups, k)
    ensures Contents(path, dir, backups + 1) ==
            Destroyed(path, dir, backups, k) + Contents(path, now, backups + 1)
  {
    hide At, IsSlot;
    if k == backups - 1 {
      Below(path, dir, now, backups, k, backups);
    } else {
      Above(path, dir, now, backups, k, backups - 1);
    }
  }

  lemma {:induction false} SameSlotsSameContents(path: string, dir: Directory, now: Directory, n: nat)
    requires forall j: nat :: j < n ==> Data(At(path, now, j)) == Data(At(path, dir, j))
    ensures Contents(path, now, n) == Contents(path, dir, n)
  {
    hide At;
    if n > 0 { SameSlotsSameContents(path, dir, now, n - 1); }
  }

  /** Leaving out the highest files leaves a suffix; leaving out numbers that are not there changes nothing. */
  lemma {:induction false} FewerFilesAreASuffix(path: string, dir: Directory, m: nat, n: nat)
    requires forall j: nat :: j >= n ==> At(path, dir, j).None?
    ensures IsSuffix(Contents(path, dir, m), Contents(path, dir, n))
    decreases if m <= n then n - m else m - n
  {
    hide At;
    if m < n {
      FewerFilesAreASuffix(path, dir, m + 1, n);
    } else if m > n {
      FewerFilesAreASuffix(path, dir, m - 1, n);
      assert Contents(path, dir, m) == Contents(path, dir, m - 1);
    }
  }

  /** Writing to the current log, the last file read, appends to what the chain holds. */
  lemma {:induction false} AppendsAtTheEnd(path: string, dir: Directory, f: File, q: Bytes, n: nat)
    requires path in dir && f.data == dir[path].data + q && n > 0
    ensures Contents(path, dir[path := f], n) == Contents(path, dir, n) + q
  {
    if n == 1 {
      assert Contents(path, dir, 0) == [] == Contents(path, dir[path := f], 0);
    } else {
      AppendsAtTheEnd(path, dir, f, q, n - 1);
      AppendLeavesBackups(path, dir, f, n - 1);
      hide At;
    }
  }

  lemma AppendLeavesBackups(path: string, dir: Directory, f: File, n: nat)
    requires n > 0
    ensures At(path, dir[path := f], n) == At(path, dir, n)
  {
  }

  /** The directory without the backups prune removes. */
  function Pruned(path: string, backups: int, dir: Directory): Directory {
    map name | name in dir && !Surplus(path, backups, name) :: dir[name]
  }

  lemma PrunedAt(path: string, backups: int, dir: Directory, n: nat)
    ensures At(path, Pruned(path, backups, dir), n) == if n > 0 && n > backups then None else At(path, dir, n)
  {
    SlotsAreSlots(path, backups, n);
  }
}
