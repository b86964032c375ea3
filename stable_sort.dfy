/** Python's `sorted` with a key: a stable sort. An element is tagged with
    its position in the input; the sort orders tagged elements by the
    comparison `lt` on the elements and, between elements `lt` does not
    separate, by position. */
module StableSort {

  /** What a sort key's `<` must be: irreflexive, transitive, and such that
      an element between two others in the order separates them. */
  ghost predicate StrictWeak<T(!new)>(lt: (T, T) -> bool)
  {
    && (forall a :: !lt(a, a))
    && (forall a, b, c :: lt(a, b) && lt(b, c) ==> lt(a, c))
    && (forall a, b, c :: lt(a, c) ==> lt(a, b) || lt(b, c))
  }

  /** `x` goes before `y` in the stable order. */
  predicate Before<T>(lt: (T, T) -> bool, x: (nat, T), y: (nat, T))
  {
    lt(x.1, y.1) || (!lt(y.1, x.1) && x.0 < y.0)
  }

  /** The input with positions. */
  function Tag<T>(s: seq<T>): (r: seq<(nat, T)>)
    ensures |r| == |s|
    ensures forall i :: 0 <= i < |s| ==> r[i] == (i, s[i])
  {
    seq(|s|, i requires 0 <= i < |s| => (i as nat, s[i]))
  }

  function Untag<T>(t: seq<(nat, T)>): (r: seq<T>)
    ensures |r| == |t|
    ensures forall i :: 0 <= i < |t| ==> r[i] == t[i].1
  {
    if |t| == 0 then [] else [t[0].1] + Untag(t[1..])
  }

  function Insert<T>(x: (nat, T), t: seq<(nat, T)>, lt: (T, T) -> bool): (r: seq<(nat, T)>)
    ensures |r| == |t| + 1
  {
    if |t| == 0 then [x]
    else if Before(lt, x, t[0]) then [x] + t
    else [t[0]] + Insert(x, t[1..], lt)
  }

  function Sort<T>(t: seq<(nat, T)>, lt: (T, T) -> bool): (r: seq<(nat, T)>)
    ensures |r| == |t|
  {
    if |t| == 0 then [] else Insert(t[0], Sort(t[1..], lt), lt)
  }

  /** `sorted(s, key=...)`: the elements in stable order. */
  function SortedBy<T>(s: seq<T>, lt: (T, T) -> bool): (r: seq<T>)
    ensures |r| == |s|
  {
    Untag(Sort(Tag(s), lt))
  }

  ghost predicate Ordered<T>(lt: (T, T) -> bool, t: seq<(nat, T)>)
  {
    forall i, j :: 0 <= i < j < |t| ==> Before(lt, t[i], t[j])
  }

  ghost predicate DistinctTags<T>(t: seq<(nat, T)>)
  {
    forall i, j :: 0 <= i < j < |t| ==> t[i].0 != t[j].0
  }

  lemma BeforeTransitive<T(!new)>(lt: (T, T) -> bool, a: (nat, T), b: (nat, T), c: (nat, T))
    requires StrictWeak(lt)
    requires Before(lt, a, b) && Before(lt, b, c)
    ensures Before(lt, a, c)
  {
    if lt(a.1, b.1) {
      assert lt(a.1, c.1) || lt(c.1, b.1);
    } else {
      assert lt(b.1, c.1) ==> lt(b.1, a.1) || lt(a.1, c.1);
      assert lt(c.1, a.1) ==> lt(c.1, b.1) || lt(b.1, a.1);
    }
  }

  lemma {:induction false} InsertPerm<T>(x: (nat, T), t: seq<(nat, T)>, lt: (T, T) -> bool)
    ensures multiset(Insert(x, t, lt)) == multiset([x] + t)
  {
    if |t| > 0 && !Before(lt, x, t[0]) {
      InsertPerm(x, t[1..], lt);
      assert t == [t[0]] + t[1..];
    }
  }

  lemma {:induction false} SortPerm<T>(t: seq<(nat, T)>, lt: (T, T) -> bool)
    ensures multiset(Sort(t, lt)) == multiset(t)
  {
    if |t| > 0 {
      SortPerm(t[1..], lt);
      InsertPerm(t[0], Sort(t[1..], lt), lt);
      assert t == [t[0]] + t[1..];
    }
  }

  /** `x` goes before the head of an ordered list: it goes before all of it. */
  lemma InsertFront<T(!new)>(x: (nat, T), t: seq<(nat, T)>, lt: (T, T) -> bool)
    requires StrictWeak(lt) && Ordered(lt, t)
    requires |t| > 0 && Before(lt, x, t[0])
    ensures Ordered(lt, [x] + t)
  {
    var r := [x] + t;
    forall i, j | 0 <= i < j < |r|
      ensures Before(lt, r[i], r[j])
    {
      if i == 0 && j > 1 {
        BeforeTransitive(lt, x, t[0], t[j - 1]);
      } else if i > 0 {
        assert r[i] == t[i - 1] && r[j] == t[j - 1];
      }
    }
  }

  /** The head goes before every element of an ordered list holding the
      rest and `x`, when it goes before `x`. */
  lemma InsertBehind<T(!new)>(x: (nat, T), t: seq<(nat, T)>, rest: seq<(nat, T)>, lt: (T, T) -> bool)
    requires |t| > 0 && Ordered(lt, t) && Ordered(lt, rest)
    requires multiset(rest) == multiset([x] + t[1..])
    requires Before(lt, t[0], x)
    ensures Ordered(lt, [t[0]] + rest)
  {
    var r := [t[0]] + rest;
    forall i, j | 0 <= i < j < |r|
      ensures Before(lt, r[i], r[j])
    {
      if i == 0 {
        var y := rest[j - 1];
        assert y in multiset([x] + t[1..]);
        assert y == x || y in t[1..];
      } else {
        assert r[i] == rest[i - 1] && r[j] == rest[j - 1];
      }
    }
  }

  lemma {:induction false} InsertOrdered<T(!new)>(x: (nat, T), t: seq<(nat, T)>, lt: (T, T) -> bool)
    requires StrictWeak(lt) && Ordered(lt, t)
    requires forall i :: 0 <= i < |t| ==> t[i].0 != x.0
    ensures Ordered(lt, Insert(x, t, lt))
  {
    if |t| > 0 {
      if Before(lt, x, t[0]) {
        InsertFront(x, t, lt);
      } else {
        var tail := t[1..];
        assert Ordered(lt, tail) by {
          forall i, j | 0 <= i < j < |tail| ensures Before(lt, tail[i], tail[j]) {
            assert tail[i] == t[i + 1] && tail[j] == t[j + 1];
          }
        }
        assert forall i :: 0 <= i < |tail| ==> tail[i].0 != x.0 by {
          forall i | 0 <= i < |tail| ensures tail[i].0 != x.0 {
            assert tail[i] == t[i + 1];
          }
        }
        InsertOrdered(x, tail, lt);
        InsertPerm(x, tail, lt);
        assert x.0 != t[0].0;
        assert Before(lt, t[0], x);
        InsertBehind(x, t, Insert(x, tail, lt), lt);
      }
    }
  }

  lemma {:induction false} SortOrdered<T(!new)>(t: seq<(nat, T)>, lt: (T, T) -> bool)
    requires StrictWeak(lt) && DistinctTags(t)
    ensures Ordered(lt, Sort(t, lt))
  {
    if |t| > 0 {
      var rest := t[1..];
      assert DistinctTags(rest) by {
        forall i, j | 0 <= i < j < |rest| ensures rest[i].0 != rest[j].0 {
          assert rest[i] == t[i + 1] && rest[j] == t[j + 1];
        }
      }
      SortOrdered(rest, lt);
      SortPerm(rest, lt);
      var s := Sort(rest, lt);
      forall i | 0 <= i < |s| ensures s[i].0 != t[0].0 {
        assert s[i] in multiset(rest);
        var k :| 0 <= k < |rest| && rest[k] == s[i];
        assert rest[k] == t[k + 1];
      }
      InsertOrdered(t[0], s, lt);
    }
  }

  /** The stable sort of `s` is a rearrangement of `s` in which every
      element carries the position it held. */
  lemma SortRearranges<T>(s: seq<T>, lt: (T, T) -> bool)
    ensures |Sort(Tag(s), lt)| == |s|
    ensures multiset(Untag(Sort(Tag(s), lt))) == multiset(s)
    ensures forall i :: 0 <= i < |s| ==> Sort(Tag(s), lt)[i].0 < |s| && Sort(Tag(s), lt)[i].1 == s[Sort(Tag(s), lt)[i].0]
  {
    var t := Tag(s);
    SortPerm(t, lt);
    var r := Sort(t, lt);
    forall i | 0 <= i < |r| ensures r[i].0 < |s| && r[i].1 == s[r[i].0] {
      assert r[i] in multiset(t);
      var k :| 0 <= k < |t| && t[k] == r[i];
    }
    SortUntag(t, lt);
    assert Untag(t) == s by {
      forall i | 0 <= i < |s| ensures Untag(t)[i] == s[i] {}
    }
  }

  /** The stable sort of `s` is non-decreasing in `lt`, and keeps every two
      elements that `lt` does not separate in their input order. With
      `SortRearranges` this determines the result. */
  lemma SortOrders<T(!new)>(s: seq<T>, lt: (T, T) -> bool)
    requires StrictWeak(lt)
    ensures var r := Sort(Tag(s), lt);
      forall i, j :: 0 <= i < j < |r| ==> !lt(r[j].1, r[i].1)
    ensures var r := Sort(Tag(s), lt);
      forall i, j :: 0 <= i < j < |r| && !lt(r[i].1, r[j].1) ==> r[i].0 < r[j].0
  {
    SortOrdered(Tag(s), lt);
  }

  lemma {:induction false} InsertUntag<T>(x: (nat, T), t: seq<(nat, T)>, lt: (T, T) -> bool)
    ensures multiset(Untag(Insert(x, t, lt))) == multiset{x.1} + multiset(Untag(t))
  {
    if |t| > 0 {
      if Before(lt, x, t[0]) {
        assert ([x] + t)[1..] == t;
      } else {
        InsertUntag(x, t[1..], lt);
        assert ([t[0]] + Insert(x, t[1..], lt))[1..] == Insert(x, t[1..], lt);
      }
    }
  }

  lemma {:induction false} SortUntag<T>(t: seq<(nat, T)>, lt: (T, T) -> bool)
    ensures multiset(Untag(Sort(t, lt))) == multiset(Untag(t))
  {
    if |t| > 0 {
      SortUntag(t[1..], lt);
      InsertUntag(t[0], Sort(t[1..], lt), lt);
    }
  }
}
