/** Sequences without repetition, and the order of program names. */
module Common {

  datatype Option<+T> = None | Some(value: T)

  ghost predicate NoDup<T>(s: seq<T>) {
    forall i, j :: 0 <= i < j < |s| ==> s[i] != s[j]
  }

  function Elements<T>(s: seq<T>): set<T> {
    set x | x in s
  }

  lemma NoDupAppend<T>(s: seq<T>, t: seq<T>)
    requires NoDup(s) && NoDup(t) && Elements(s) !! Elements(t)
    ensures NoDup(s + t)
    ensures Elements(s + t) == Elements(s) + Elements(t)
  {
    forall i, j | 0 <= i < j < |s + t| ensures (s + t)[i] != (s + t)[j] {
      if i < |s| <= j {
        assert s[i] in Elements(s) && t[j - |s|] in Elements(t);
      }
    }
  }

  lemma {:induction false} NoDupCard<T>(s: seq<T>)
    requires NoDup(s)
    ensures |Elements(s)| == |s|
  {
    if s != [] {
      NoDupCard(s[1..]);
      assert Elements(s) == Elements(s[1..]) + {s[0]};
    }
  }

  /** A sequence longer than the set it is drawn from repeats an element. */
  lemma {:induction false} Pigeonhole<T>(s: seq<T>, pool: set<T>) returns (i: nat, j: nat)
    requires forall x :: x in s ==> x in pool
    requires |s| > |pool|
    ensures i < j < |s| && s[i] == s[j]
  {
    if x, y :| 0 <= x < y < |s| && s[x] == s[y] {
      i, j := x, y;
    } else {
      NoDupCard(s);
      SubsetCard(Elements(s), pool);
      assert false;
    }
  }

  lemma {:induction false} SubsetCard<T>(a: set<T>, b: set<T>)
    requires a <= b
    ensures |a| <= |b|
    ensures |a| == |b| ==> a == b
  {
    assert b == a + (b - a);
    assert |b| == |a| + |b - a|;
  }

  /** Byte-wise lexicographic order, the one sort.Strings uses. */
  predicate Below(a: string, b: string) {
    if b == [] then false
    else if a == [] then true
    else a[0] < b[0] || (a[0] == b[0] && Below(a[1..], b[1..]))
  }

  lemma {:induction false} BelowTotal(a: string, b: string)
    ensures a == b || Below(a, b) || Below(b, a)
  {
    if a != [] && b != [] && a[0] == b[0] {
      BelowTotal(a[1..], b[1..]);
      assert a == [a[0]] + a[1..] && b == [b[0]] + b[1..];
    }
  }

  lemma {:induction false} BelowTransitive(a: string, b: string, c: string)
    requires Below(a, b) && Below(b, c)
    ensures Below(a, c)
  {
    if a != [] && a[0] == b[0] == c[0] {
      BelowTransitive(a[1..], b[1..], c[1..]);
    }
  }

  ghost predicate Sorted(s: seq<string>) {
    forall i, j :: 0 <= i < j < |s| ==> Below(s[i], s[j])
  }

  /** The contract of sort.Strings on distinct names. */
  method SortStrings(s: seq<string>) returns (r: seq<string>)
    requires NoDup(s)
    ensures Sorted(r) && NoDup(r) && |r| == |s|
    ensures forall x :: x in r <==> x in s
  {
    r := [];
    for k := 0 to |s|
      invariant Sorted(r) && NoDup(r) && |r| == k
      invariant forall x :: x in r <==> x in s[..k]
    {
      var p := 0;
      while p < |r| && Below(r[p], s[k])
        invariant 0 <= p <= |r|
        invariant forall q :: 0 <= q < p ==> Below(r[q], s[k])
      {
        p := p + 1;
      }
      assert forall q :: 0 <= q < |r| ==> r[q] != s[k] by {
        forall q | 0 <= q < |r| ensures r[q] != s[k] { assert r[q] in r; }
      }
      if p < |r| { BelowTotal(r[p], s[k]); }
      forall q | p <= q < |r| ensures Below(s[k], r[q]) {
        if p < q { BelowTransitive(s[k], r[p], r[q]); }
      }
      ghost var before := r;
      r := r[..p] + [s[k]] + r[p..];
      assert forall x :: x in r <==> x in before || x == s[k] by {
        assert before == before[..p] + before[p..];
      }
    }
  }
}
