/** The order in which `Object.keys` and `Object.entries` visit the own string keys of
    an ordinary object (section 10.1.11.1, OrdinaryOwnPropertyKeys, of ECMA-262): every
    key that is an array index first, by ascending numeric value, then the other keys
    in the order they were created. */
module PropertyOrder {

  predicate AllDigits(k: string) {
    forall i :: 0 <= i < |k| ==> '0' <= k[i] <= '9'
  }

  /** The number a string of decimal digits denotes. */
  function DecimalValue(k: string): nat
    requires AllDigits(k)
  {
    if k == [] then 0 else 10 * DecimalValue(k[..|k| - 1]) + (k[|k| - 1] as int - '0' as int)
  }

  /** An array index: the canonical decimal text (no leading zero) of a number below
      2^32 - 1. */
  predicate IsArrayIndex(k: string) {
    && 0 < |k|
    && AllDigits(k)
    && (|k| > 1 ==> k[0] != '0')
    && DecimalValue(k) < 0xFFFF_FFFF
  }

  /** The value an array-index key is ordered by. */
  function IndexValue(k: string): nat {
    if IsArrayIndex(k) then DecimalValue(k) else 0
  }

  /** A single decimal digit is an array index whose value is the digit. */
  lemma DigitIsIndex(c: char)
    requires '0' <= c <= '9'
    ensures IsArrayIndex([c]) && IndexValue([c]) == c as int - '0' as int
  {
    assert [c][..0] == [];
    assert AllDigits([c]);
    assert DecimalValue([c]) == c as int - '0' as int;
  }

  /** A key that is not all digits is no array index. */
  lemma NonDigitIsNoIndex(c: char)
    requires !('0' <= c <= '9')
    ensures !IsArrayIndex([c])
  {
    assert [c][0] == c;
  }

  /** The keys of ks that p accepts, in their order in ks. */
  function Keep(ks: seq<string>, p: string -> bool): (r: seq<string>)
    ensures forall i :: 0 <= i < |r| ==> p(r[i])
  {
    if ks == [] then []
    else if p(ks[|ks| - 1]) then Keep(ks[..|ks| - 1], p) + [ks[|ks| - 1]]
    else Keep(ks[..|ks| - 1], p)
  }

  /** The keys of ks that p rejects, in their order in ks. */
  function Drop(ks: seq<string>, p: string -> bool): (r: seq<string>)
    ensures forall i :: 0 <= i < |r| ==> !p(r[i])
  {
    if ks == [] then []
    else if p(ks[|ks| - 1]) then Drop(ks[..|ks| - 1], p)
    else Drop(ks[..|ks| - 1], p) + [ks[|ks| - 1]]
  }

  predicate Ascending(ks: seq<string>, value: string -> nat) {
    forall i, j :: 0 <= i < j < |ks| ==> value(ks[i]) <= value(ks[j])
  }

  /** k placed before the first key of ks whose value is not smaller. */
  function Insert(k: string, ks: seq<string>, value: string -> nat): (r: seq<string>)
    ensures multiset(r) == multiset(ks) + multiset{k}
    ensures |r| == |ks| + 1
  {
    if ks == [] then [k]
    else if value(k) <= value(ks[0]) then [k] + ks
    else
      assert ks == [ks[0]] + ks[1..];
      [ks[0]] + Insert(k, ks[1..], value)
  }

  /** Inserting into ascending keys keeps them ascending. */
  lemma {:induction false} InsertAscending(k: string, ks: seq<string>, value: string -> nat)
    requires Ascending(ks, value)
    ensures Ascending(Insert(k, ks, value), value)
    decreases |ks|
  {
    if ks != [] && value(k) > value(ks[0]) {
      InsertAscending(k, ks[1..], value);
      var rest := Insert(k, ks[1..], value);
      forall x | x in rest
        ensures value(ks[0]) <= value(x)
      {
        assert x in multiset(rest);
      }
    }
  }

  /** The keys of ks by ascending value. */
  function Sort(ks: seq<string>, value: string -> nat): (r: seq<string>)
    ensures multiset(r) == multiset(ks)
    ensures |r| == |ks|
    ensures Ascending(r, value)
  {
    if ks == [] then []
    else
      assert ks == [ks[0]] + ks[1..];
      InsertAscending(ks[0], Sort(ks[1..], value), value);
      Insert(ks[0], Sort(ks[1..], value), value)
  }

  /** Sorting keys that are already in ascending order leaves them alone. */
  lemma {:induction false} SortAscending(ks: seq<string>, value: string -> nat)
    requires Ascending(ks, value)
    ensures Sort(ks, value) == ks
    decreases |ks|
  {
    if ks != [] {
      SortAscending(ks[1..], value);
      if |ks| > 1 {
        assert value(ks[0]) <= value(ks[1]);
      }
    }
  }

  lemma {:induction false} SplitKeys(ks: seq<string>, p: string -> bool)
    ensures multiset(Keep(ks, p)) + multiset(Drop(ks, p)) == multiset(ks)
    decreases |ks|
  {
    if ks != [] {
      SplitKeys(ks[..|ks| - 1], p);
      assert ks == ks[..|ks| - 1] + [ks[|ks| - 1]];
    }
  }

  /** `Object.keys` of an object whose keys were created in the order ks: the same
      keys, each as often as it was created. */
  function OwnKeys(ks: seq<string>): (r: seq<string>)
    ensures multiset(r) == multiset(ks)
    ensures |r| == |ks|
  {
    SplitKeys(ks, IsArrayIndex);
    var r := Sort(Keep(ks, IsArrayIndex), IndexValue) + Drop(ks, IsArrayIndex);
    assert multiset(r) == multiset(Keep(ks, IsArrayIndex)) + multiset(Drop(ks, IsArrayIndex));
    assert |multiset(r)| == |r| && |multiset(ks)| == |ks|;
    r
  }

  /** Array indices come first and in ascending order, the other keys after them in
      creation order. */
  lemma OwnKeysOrder(ks: seq<string>)
    ensures var r := OwnKeys(ks);
            var n := |Keep(ks, IsArrayIndex)|;
            && (forall i :: 0 <= i < n ==> IsArrayIndex(r[i]))
            && (forall i, j :: 0 <= i < j < n ==> IndexValue(r[i]) <= IndexValue(r[j]))
            && (forall i :: n <= i < |r| ==> !IsArrayIndex(r[i]))
            && r[n..] == Drop(ks, IsArrayIndex)
  {
    var s := Sort(Keep(ks, IsArrayIndex), IndexValue);
    forall i | 0 <= i < |s|
      ensures IsArrayIndex(s[i])
    {
      assert s[i] in multiset(Keep(ks, IsArrayIndex));
    }
  }

  lemma {:induction false} KeepAppend(a: seq<string>, b: seq<string>, p: string -> bool)
    ensures Keep(a + b, p) == Keep(a, p) + Keep(b, p)
    ensures Drop(a + b, p) == Drop(a, p) + Drop(b, p)
    decreases |b|
  {
    if b == [] {
      assert a + b == a;
    } else {
      var b' := b[..|b| - 1];
      assert (a + b)[..|a + b| - 1] == a + b';
      KeepAppend(a, b', p);
    }
  }

  lemma {:induction false} KeepNone(a: seq<string>, p: string -> bool)
    requires forall i :: 0 <= i < |a| ==> !p(a[i])
    ensures Keep(a, p) == [] && Drop(a, p) == a
    decreases |a|
  {
    if a != [] {
      KeepNone(a[..|a| - 1], p);
    }
  }

  lemma {:induction false} KeepAll(b: seq<string>, p: string -> bool)
    requires forall i :: 0 <= i < |b| ==> p(b[i])
    ensures Keep(b, p) == b && Drop(b, p) == []
    decreases |b|
  {
    if b != [] {
      KeepAll(b[..|b| - 1], p);
    }
  }

  /** Keys a accepted by none of p, then b all accepted and ascending, then c accepted
      by none: b comes first. */
  lemma MoveFirst(a: seq<string>, b: seq<string>, c: seq<string>, p: string -> bool, value: string -> nat)
    requires forall i :: 0 <= i < |a| ==> !p(a[i])
    requires forall i :: 0 <= i < |b| ==> p(b[i])
    requires forall i :: 0 <= i < |c| ==> !p(c[i])
    requires Ascending(b, value)
    ensures Sort(Keep(a + b + c, p), value) + Drop(a + b + c, p) == b + a + c
  {
    KeepOfThree(a, b, c, p);
    SortAscending(b, value);
  }

  lemma KeepOfThree(a: seq<string>, b: seq<string>, c: seq<string>, p: string -> bool)
    requires forall i :: 0 <= i < |a| ==> !p(a[i])
    requires forall i :: 0 <= i < |b| ==> p(b[i])
    requires forall i :: 0 <= i < |c| ==> !p(c[i])
    ensures Keep(a + b + c, p) == b && Drop(a + b + c, p) == a + c
  {
    KeepNone(a, p);
    KeepAll(b, p);
    KeepNone(c, p);
    var ab := a + b;
    KeepAppend(a, b, p);
    assert Keep(ab, p) == b && Drop(ab, p) == a;
    KeepAppend(ab, c, p);
  }

  /** Keys created as a, then ascending array indices b, then c, where neither a nor c
      holds an array index, are visited as b, a, c. */
  lemma IndicesMoveFirst(a: seq<string>, b: seq<string>, c: seq<string>)
    requires forall i :: 0 <= i < |a| ==> !IsArrayIndex(a[i])
    requires forall i :: 0 <= i < |b| ==> IsArrayIndex(b[i])
    requires forall i :: 0 <= i < |c| ==> !IsArrayIndex(c[i])
    requires Ascending(b, IndexValue)
    ensures OwnKeys(a + b + c) == b + a + c
  {
    MoveFirst(a, b, c, IsArrayIndex, IndexValue);
  }
}
