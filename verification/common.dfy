/** Values shared by every part of the model. */
module Common {

  datatype Option<+T> = None | Some(value: T)

  datatype Result<+T, +E> = Ok(value: T) | Err(error: E)

  const MAX_INT64: int := 0x7FFF_FFFF_FFFF_FFFF

  function Min(a: int, b: int): int { if a <= b then a else b }

  function Max(a: int, b: int): int { if a <= b then b else a }

  /** A set of integers confined to `width` consecutive values has at most `width` members. */
  lemma {:induction false} WindowBoundsSize(s: set<int>, low: int, width: nat)
    requires forall x :: x in s ==> low <= x < low + width
    ensures |s| <= width
    decreases width
  {
    if width == 0 {
      NoInts(s);
    } else {
      var rest := s - {low + width - 1};
      WindowBoundsSize(rest, low, width - 1);
      assert s <= rest + {low + width - 1};
      assert |rest + {low + width - 1}| <= |rest| + 1;
      SubsetSize(s, rest + {low + width - 1});
    }
  }

  lemma Member<T>(s: set<T>) returns (x: T)
    requires s != {}
    ensures x in s
  {
    x :| x in s;
  }

  lemma SomeInt(s: set<int>)
    requires s != {}
    ensures exists x :: x in s
  {
    var x := Member(s);
  }

  lemma NoInts(s: set<int>)
    requires forall x :: x !in s
    ensures s == {}
  {
    if s != {} {
      var x := Member(s);
    }
  }

  lemma SameInts(a: set<int>, b: set<int>)
    requires forall x :: x in a <==> x in b
    ensures a == b
  {
    NoInts(a - b);
    NoInts(b - a);
  }

  lemma {:induction false} SameIntMap<V>(a: map<int, V>, b: map<int, V>)
    requires forall x :: x in a <==> x in b
    requires forall x :: x in a ==> a[x] == b[x]
    ensures a == b
    decreases |a|
  {
    SameInts(a.Keys, b.Keys);
    if a.Keys == {} {
      assert a == map[];
      assert b == map[];
    } else {
      var k := Member(a.Keys);
      SameIntMap(a - {k}, b - {k});
      assert a == (a - {k})[k := a[k]];
      assert b == (b - {k})[k := b[k]];
    }
  }

  lemma {:induction false} SubsetSize<T>(a: set<T>, b: set<T>)
    requires a <= b
    ensures |a| <= |b|
  {
    assert b == a + (b - a);
  }
}
