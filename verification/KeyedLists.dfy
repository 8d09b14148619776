/** Lists ordered by message key: sorting, and cutting out the part between two keys. */
module KeyedLists {
  import opened Wrappers
  import opened MessageKeys

  predicate Ascending<T>(s: seq<T>, key: T -> Text) {
    forall i, j :: 0 <= i < j < |s| ==> Less(key(s[i]), key(s[j]))
  }

  predicate Distinct<T>(s: seq<T>, key: T -> Text) {
    forall i, j :: 0 <= i < j < |s| ==> key(s[i]) != key(s[j])
  }

  function Insert<T>(x: T, s: seq<T>, key: T -> Text): seq<T> {
    if s == [] || !Less(key(s[0]), key(x)) then [x] + s else [s[0]] + Insert(x, s[1..], key)
  }

  /** A stable sort by key. */
  function Sort<T>(s: seq<T>, key: T -> Text): seq<T> {
    if s == [] then [] else Insert(s[0], Sort(s[1..], key), key)
  }

  lemma {:induction false} InsertElements<T>(x: T, s: seq<T>, key: T -> Text)
    ensures multiset(Insert(x, s, key)) == multiset([x] + s)
  {
    if s != [] && Less(key(s[0]), key(x)) {
      InsertElements(x, s[1..], key);
      assert s == [s[0]] + s[1..];
    }
  }

  lemma {:induction false} SortElements<T>(s: seq<T>, key: T -> Text)
    ensures multiset(Sort(s, key)) == multiset(s)
  {
    if s != [] {
      SortElements(s[1..], key);
      InsertElements(s[0], Sort(s[1..], key), key);
      assert s == [s[0]] + s[1..];
    }
  }

  lemma {:induction false} InsertAscends<T>(x: T, s: seq<T>, key: T -> Text)
    requires Ascending(s, key) && forall y :: y in s ==> key(y) != key(x)
    ensures Ascending(Insert(x, s, key), key)
  {
    if s == [] {
    } else if Less(key(s[0]), key(x)) {
      InsertAscends(x, s[1..], key);
      var rest := Insert(x, s[1..], key);
      InsertElements(x, s[1..], key);
      forall j | 0 <= j < |rest| ensures Less(key(s[0]), key(rest[j])) {
        assert rest[j] in multiset([x] + s[1..]);
      }
    } else {
      LessTotal(key(x), key(s[0]));
      forall j | 0 <= j < |s| ensures Less(key(x), key(s[j])) {
        if j > 0 { LessTransitive(key(x), key(s[0]), key(s[j])); }
      }
    }
  }

  lemma {:induction false} SortAscends<T>(s: seq<T>, key: T -> Text)
    requires Distinct(s, key)
    ensures Ascending(Sort(s, key), key)
  {
    if s != [] {
      SortAscends(s[1..], key);
      SortElements(s[1..], key);
      forall y | y in Sort(s[1..], key) ensures key(y) != key(s[0]) {
        assert y in multiset(s[1..]);
      }
      InsertAscends(s[0], Sort(s[1..], key), key);
    }
  }

  // ----- sorting what is already in order, or in the opposite order

  function Reverse<T>(s: seq<T>): (r: seq<T>)
    ensures |r| == |s| && forall i :: 0 <= i < |s| ==> r[i] == s[|s| - 1 - i]
  {
    if s == [] then [] else Reverse(s[1..]) + [s[0]]
  }

  lemma {:induction false} SortKeepsAscending<T>(s: seq<T>, key: T -> Text)
    requires Ascending(s, key)
    ensures Sort(s, key) == s
  {
    if s != [] {
      SortKeepsAscending(s[1..], key);
      if |s| > 1 { LessAsymmetric(key(s[0]), key(s[1])); }
    }
  }

  lemma {:induction false} InsertAtEnd<T>(x: T, s: seq<T>, key: T -> Text)
    requires forall y :: y in s ==> Less(key(y), key(x))
    ensures Insert(x, s, key) == s + [x]
  {
    if s != [] {
      InsertAtEnd(x, s[1..], key);
      assert s == [s[0]] + s[1..];
    }
  }

  lemma {:induction false} SortReversesDescending<T>(s: seq<T>, key: T -> Text)
    requires Ascending(s, key)
    ensures Sort(Reverse(s), key) == s
    decreases |s|
  {
    if s != [] {
      var r, n := Reverse(s), |s| - 1;
      assert s == s[..n] + [s[n]];
      assert r[1..] == Reverse(s[..n]);
      SortReversesDescending(s[..n], key);
      InsertAtEnd(s[n], s[..n], key);
    }
  }

  // ----- the part between two keys

  predicate InRange(key: Text, lo: Option<Text>, hi: Option<Text>) {
    (lo.Some? ==> Less(lo.value, key)) && (hi.Some? ==> Less(key, hi.value))
  }

  function Inside<T(!new)>(s: seq<T>, key: T -> Text, lo: Option<Text>, hi: Option<Text>): (r: seq<T>)
    ensures forall x :: x in r <==> x in s && InRange(key(x), lo, hi)
  {
    if s == [] then []
    else if InRange(key(s[0]), lo, hi) then [s[0]] + Inside(s[1..], key, lo, hi)
    else Inside(s[1..], key, lo, hi)
  }

  lemma {:induction false} InsideAscends<T(!new)>(s: seq<T>, key: T -> Text, lo: Option<Text>, hi: Option<Text>)
    requires Ascending(s, key)
    ensures Ascending(Inside(s, key, lo, hi), key)
  {
    if s != [] { InsideAscends(s[1..], key, lo, hi); }
  }

  lemma {:induction false} InsideConcat<T(!new)>(s: seq<T>, t: seq<T>, key: T -> Text, lo: Option<Text>, hi: Option<Text>)
    ensures Inside(s + t, key, lo, hi) == Inside(s, key, lo, hi) + Inside(t, key, lo, hi)
  {
    hide InRange;
    if s == [] {
      assert s + t == t;
    } else {
      assert (s + t)[1..] == s[1..] + t;
      InsideConcat(s[1..], t, key, lo, hi);
    }
  }

  lemma {:induction false} InsideAllOrNone<T(!new)>(s: seq<T>, key: T -> Text, lo: Option<Text>, hi: Option<Text>)
    ensures (forall i :: 0 <= i < |s| ==> InRange(key(s[i]), lo, hi)) ==> Inside(s, key, lo, hi) == s
    ensures (forall i :: 0 <= i < |s| ==> !InRange(key(s[i]), lo, hi)) ==> Inside(s, key, lo, hi) == []
  {
    hide InRange;
    if s != [] { InsideAllOrNone(s[1..], key, lo, hi); }
  }

  /** Keys `a` to `b - 1` lie in the range, and no other: a slice. */
  lemma InsideIsSlice<T(!new)>(s: seq<T>, key: T -> Text, lo: Option<Text>, hi: Option<Text>, a: nat, b: nat)
    requires a <= b <= |s|
    requires forall i :: 0 <= i < |s| ==> (InRange(key(s[i]), lo, hi) <==> a <= i < b)
    ensures Inside(s, key, lo, hi) == s[a..b]
  {
    hide InRange, Inside;
    assert s == s[..a] + s[a..b] + s[b..];
    InsideConcat(s[..a] + s[a..b], s[b..], key, lo, hi);
    InsideConcat(s[..a], s[a..b], key, lo, hi);
    InsideAllOrNone(s[..a], key, lo, hi);
    InsideAllOrNone(s[a..b], key, lo, hi);
    InsideAllOrNone(s[b..], key, lo, hi);
  }

  /** Cutting a narrower range out of a part gives the narrower part. */
  lemma {:induction false} InsideTwice<T(!new)>(s: seq<T>, key: T -> Text, lo: Option<Text>, hi: Option<Text>,
                                          lo': Option<Text>, hi': Option<Text>)
    requires forall x :: x in s && InRange(key(x), lo', hi') ==> InRange(key(x), lo, hi)
    ensures Inside(Inside(s, key, lo, hi), key, lo', hi') == Inside(s, key, lo', hi')
  {
    if s != [] {
      InsideTwice(s[1..], key, lo, hi, lo', hi');
      assert InRange(key(s[0]), lo', hi') ==> InRange(key(s[0]), lo, hi);
      var rest := Inside(s[1..], key, lo, hi);
      assert ([s[0]] + rest)[1..] == rest;
    }
  }

  /** The bound that names the element at `i`, in a list in order: what lies beyond it and what lies before it. */
  lemma KeyCutsAt<T>(s: seq<T>, key: T -> Text, i: nat, j: nat)
    requires Ascending(s, key) && i < |s| && j < |s|
    ensures Less(key(s[i]), key(s[j])) <==> i < j
  {
    if j < i { LessAsymmetric(key(s[j]), key(s[i])); }
    if j == i { LessIrreflexive(key(s[i])); }
  }
}
