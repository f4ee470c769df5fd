/** The list operations the services rely on, with the semantics of the .NET
    and MongoDB primitives they stand for: LINQ `Distinct`, `List.Remove`
    (first occurrence only), `$addToSet` with `$each`, and `$pullAll`. */
module Lists {

  predicate NoDuplicates<T(==)>(xs: seq<T>) {
    forall i, j :: 0 <= i < j < |xs| ==> xs[i] != xs[j]
  }

  /** Index of the first occurrence of `x` in `xs`. */
  function IndexOf<T(==)>(xs: seq<T>, x: T): (i: nat)
    requires x in xs
    ensures i < |xs| && xs[i] == x
    ensures x !in xs[..i]
  {
    if xs[0] == x then 0 else 1 + IndexOf(xs[1..], x)
  }

  /** The elements of `xs` whose membership in `ys` is `inside`, in order:
      `Filter(xs, ys, false)` is `$pullAll`, `Filter(xs, ys, true)` keeps
      only the elements listed in `ys`. */
  function Filter<T(==,!new)>(xs: seq<T>, ys: seq<T>, inside: bool): (r: seq<T>)
    ensures forall x :: x in r <==> x in xs && (x in ys) == inside
    ensures |r| <= |xs|
  {
    if xs == [] then []
    else if (xs[0] in ys) == inside then [xs[0]] + Filter(xs[1..], ys, inside)
    else Filter(xs[1..], ys, inside)
  }

  /** LINQ `Distinct`: drops every element that already occurred earlier. */
  function Distinct<T(==,!new)>(xs: seq<T>): (r: seq<T>)
    ensures forall x :: x in r <==> x in xs
    ensures NoDuplicates(r)
  {
    if xs == [] then []
    else
      var d := Distinct(xs[..|xs| - 1]);
      if xs[|xs| - 1] in d then d else d + [xs[|xs| - 1]]
  }

  /** `List.Remove`: removes the first occurrence of `x`, if any. */
  function RemoveFirst<T(==)>(xs: seq<T>, x: T): seq<T>
  {
    if xs == [] then []
    else if xs[0] == x then xs[1..]
    else [xs[0]] + RemoveFirst(xs[1..], x)
  }

  /** One occurrence of `x` goes, if there is one, and nothing else. */
  lemma {:induction false} RemoveFirstCounts<T>(xs: seq<T>, x: T)
    ensures multiset(RemoveFirst(xs, x)) == multiset(xs) - multiset{x}
    decreases |xs|
  {
    if xs != [] {
      assert xs == [xs[0]] + xs[1..];
      if xs[0] != x { RemoveFirstCounts(xs[1..], x); }
    }
  }

  /** `ys.ForEach(y => xs.Remove(y))`: one `List.Remove` per element of `ys`,
      in order. */
  function RemoveEach<T(==)>(xs: seq<T>, ys: seq<T>): seq<T>
    decreases |ys|
  {
    if ys == [] then xs
    else RemoveEach(RemoveFirst(xs, ys[0]), ys[1..])
  }

  /** Counted with repeats, one removal per element of `ys` takes away
      exactly `ys`: the multiset difference. */
  lemma {:induction false} RemoveEachCounts<T>(xs: seq<T>, ys: seq<T>)
    ensures multiset(RemoveEach(xs, ys)) == multiset(xs) - multiset(ys)
    decreases |ys|
  {
    if ys != [] {
      assert ys == [ys[0]] + ys[1..];
      RemoveFirstCounts(xs, ys[0]);
      RemoveEachCounts(RemoveFirst(xs, ys[0]), ys[1..]);
    }
  }

  /** MongoDB `$addToSet` with `$each`: appends, in order, every element of
      `ys` not already present (including ones appended earlier by the same
      update). */
  function AddToSetEach<T(==,!new)>(xs: seq<T>, ys: seq<T>): (r: seq<T>)
    ensures |r| >= |xs| && r[..|xs|] == xs
    ensures forall x :: x in r <==> x in xs || x in ys
    ensures NoDuplicates(xs) ==> NoDuplicates(r)
    decreases |ys|
  {
    if ys == [] then xs
    else
      var next := if ys[0] in xs then xs else xs + [ys[0]];
      var r := AddToSetEach(next, ys[1..]);
      assert r[..|xs|] == next[..|xs|];
      r
  }

  /** Adding one more element at the end of the request adds it at the end
      of the result, unless it is already there. */
  lemma {:induction false} AddToSetEachSnoc<T(!new)>(xs: seq<T>, ys: seq<T>, y: T)
    ensures AddToSetEach(xs, ys + [y]) ==
              if y in AddToSetEach(xs, ys) then AddToSetEach(xs, ys) else AddToSetEach(xs, ys) + [y]
    decreases |ys|
  {
    if ys != [] {
      assert (ys + [y])[1..] == ys[1..] + [y];
      AddToSetEachSnoc(if ys[0] in xs then xs else xs + [ys[0]], ys[1..], y);
    }
  }

  /** `$addToSet` with `$each` appends the requested elements that are not
      yet present, each once, in the order of their first occurrence in the
      request. */
  lemma {:induction false} AddToSetEachAppendsNew<T(!new)>(xs: seq<T>, ys: seq<T>)
    ensures AddToSetEach(xs, ys) == xs + Filter(Distinct(ys), xs, false)
    decreases |ys|
  {
    if ys != [] {
      var init, y := ys[..|ys| - 1], ys[|ys| - 1];
      assert ys == init + [y];
      AddToSetEachAppendsNew(xs, init);
      AddToSetEachSnoc(xs, init, y);
      var d := Distinct(init);
      FilterAppend(d, [y], xs, false);
    }
  }

  /** Removing an element different from the head leaves the head in place. */
  lemma {:induction false} RemoveEachKeepsHead<T>(x: T, xs: seq<T>, ys: seq<T>)
    requires x !in ys
    ensures RemoveEach([x] + xs, ys) == [x] + RemoveEach(xs, ys)
    decreases |ys|
  {
    if ys != [] {
      assert ([x] + xs)[1..] == xs;
      assert RemoveFirst([x] + xs, ys[0]) == [x] + RemoveFirst(xs, ys[0]);
      RemoveEachKeepsHead(x, RemoveFirst(xs, ys[0]), ys[1..]);
    }
  }

  /** The services first collect, occurrence by occurrence, the entries to
      drop (those whose membership in `roster` is `inside`) and then remove
      them one `List.Remove` at a time. Because every occurrence is listed,
      every occurrence goes: the net effect is a filter on the opposite
      membership, order kept. */
  lemma {:induction false} RemoveCollected<T(!new)>(xs: seq<T>, roster: seq<T>, inside: bool)
    ensures RemoveEach(xs, Filter(xs, roster, inside)) == Filter(xs, roster, !inside)
    decreases |xs|
  {
    if xs != [] {
      var x, t := xs[0], xs[1..];
      assert xs == [x] + t;
      RemoveCollected(t, roster, inside);
      if (x in roster) == inside {
        assert Filter(xs, roster, inside) == [x] + Filter(t, roster, inside);
        assert RemoveFirst(xs, x) == t;
      } else {
        assert Filter(xs, roster, inside) == Filter(t, roster, inside);
        RemoveEachKeepsHead(x, t, Filter(t, roster, inside));
      }
    }
  }

  /** The tail of a duplicate-free list is duplicate-free and lacks the head. */
  lemma TailOfDistinct<T>(xs: seq<T>)
    requires xs != [] && NoDuplicates(xs)
    ensures NoDuplicates(xs[1..]) && xs[0] !in xs[1..]
  {
    var t := xs[1..];
    forall i, j | 0 <= i < j < |t| ensures t[i] != t[j] {
      assert t[i] == xs[i + 1] && t[j] == xs[j + 1];
    }
    forall i | 0 <= i < |t| ensures t[i] != xs[0] {
      assert t[i] == xs[i + 1];
    }
  }

  /** Prepending an element absent from a duplicate-free list keeps it
      duplicate-free. */
  lemma ConsDistinct<T>(x: T, xs: seq<T>)
    requires NoDuplicates(xs) && x !in xs
    ensures NoDuplicates([x] + xs)
  {
    var r := [x] + xs;
    forall i, j | 0 <= i < j < |r| ensures r[i] != r[j] {
      assert r[j] == xs[j - 1];
      if i > 0 {
        assert r[i] == xs[i - 1];
      }
    }
  }

  lemma {:induction false} RemoveFirstFromDistinct<T(!new)>(xs: seq<T>, y: T)
    requires NoDuplicates(xs)
    ensures RemoveFirst(xs, y) == Filter(xs, [y], false)
    ensures NoDuplicates(RemoveFirst(xs, y))
    decreases |xs|
  {
    if xs != [] {
      var t := xs[1..];
      TailOfDistinct(xs);
      RemoveFirstFromDistinct(t, y);
      if xs[0] == y {
        FilterAbsent(t, [y]);
      } else {
        assert xs[0] !in RemoveFirst(t, y) by {
          RemoveFirstCounts(t, y);
          assert multiset(RemoveFirst(t, y)) <= multiset(t);
          assert xs[0] !in multiset(t);
        }
        ConsDistinct(xs[0], RemoveFirst(t, y));
      }
    }
  }

  /** Filtering distributes over concatenation. With the one-element case
      (an element is kept exactly when its membership is `inside`) this pins
      the result down completely: kept elements stay in order, each
      occurrence on its own. */
  lemma {:induction false} FilterAppend<T(!new)>(xs: seq<T>, zs: seq<T>, ys: seq<T>, inside: bool)
    ensures Filter(xs + zs, ys, inside) == Filter(xs, ys, inside) + Filter(zs, ys, inside)
    decreases |xs|
  {
    if xs == [] {
      assert xs + zs == zs;
    } else {
      assert (xs + zs)[1..] == xs[1..] + zs;
      FilterAppend(xs[1..], zs, ys, inside);
    }
  }

  /** Counted with repeats, every kept element keeps all its occurrences and
      every other element loses all of them. */
  lemma {:induction false} FilterCounts<T(!new)>(xs: seq<T>, ys: seq<T>, inside: bool, x: T)
    ensures multiset(Filter(xs, ys, inside))[x] == if (x in ys) == inside then multiset(xs)[x] else 0
    decreases |xs|
  {
    if xs != [] {
      assert xs == [xs[0]] + xs[1..];
      FilterCounts(xs[1..], ys, inside, x);
    }
  }

  /** Only the membership in `ys` of the elements of `xs` matters. */
  lemma {:induction false} FilterAgrees<T(!new)>(xs: seq<T>, ys: seq<T>, zs: seq<T>, inside: bool)
    requires forall x :: x in xs ==> (x in ys <==> x in zs)
    ensures Filter(xs, ys, inside) == Filter(xs, zs, inside)
    decreases |xs|
  {
    if xs != [] {
      assert forall x :: x in xs[1..] ==> x in xs;
      FilterAgrees(xs[1..], ys, zs, inside);
    }
  }

  lemma {:induction false} FilterAbsent<T(!new)>(xs: seq<T>, ys: seq<T>)
    requires forall x :: x in xs ==> x !in ys
    ensures Filter(xs, ys, false) == xs
    decreases |xs|
  {
    if xs != [] {
      assert forall x :: x in xs[1..] ==> x in xs;
      FilterAbsent(xs[1..], ys);
    }
  }

  lemma {:induction false} FilterTwice<T(!new)>(xs: seq<T>, y: T, ys: seq<T>)
    ensures Filter(Filter(xs, [y], false), ys, false) == Filter(xs, [y] + ys, false)
    decreases |xs|
  {
    if xs != [] {
      FilterTwice(xs[1..], y, ys);
    }
  }

  /** On a duplicate-free list, removing the elements of `ys` one by one
      leaves exactly the elements not in `ys`, order kept. */
  lemma {:induction false} RemoveEachFromDistinct<T(!new)>(xs: seq<T>, ys: seq<T>)
    requires NoDuplicates(xs)
    ensures RemoveEach(xs, ys) == Filter(xs, ys, false)
    decreases |ys|
  {
    if ys == [] {
      FilterAbsent(xs, ys);
    } else {
      RemoveFirstFromDistinct(xs, ys[0]);
      RemoveEachFromDistinct(RemoveFirst(xs, ys[0]), ys[1..]);
      FilterTwice(xs, ys[0], ys[1..]);
      assert [ys[0]] + ys[1..] == ys;
    }
  }

  lemma {:induction false} FilterKeepsDistinct<T(!new)>(xs: seq<T>, ys: seq<T>, inside: bool)
    requires NoDuplicates(xs)
    ensures NoDuplicates(Filter(xs, ys, inside))
    decreases |xs|
  {
    if xs != [] {
      TailOfDistinct(xs);
      FilterKeepsDistinct(xs[1..], ys, inside);
      if (xs[0] in ys) == inside {
        ConsDistinct(xs[0], Filter(xs[1..], ys, inside));
      }
    }
  }

  /** `Distinct` keeps first occurrences: its elements appear in the order in
      which they first occur in the input. */
  lemma {:induction false} DistinctKeepsFirstOccurrenceOrder<T(!new)>(xs: seq<T>)
    ensures forall i, j :: 0 <= i < j < |Distinct(xs)| ==>
              IndexOf(xs, Distinct(xs)[i]) < IndexOf(xs, Distinct(xs)[j])
    decreases |xs|
  {
    if xs != [] {
      var n := |xs| - 1;
      var init := xs[..n];
      var d := Distinct(init);
      var r := Distinct(xs);
      assert init + [xs[n]] == xs;
      assert r == if xs[n] in d then d else d + [xs[n]];
      DistinctKeepsFirstOccurrenceOrder(init);
      forall i, j | 0 <= i < j < |r| ensures IndexOf(xs, r[i]) < IndexOf(xs, r[j]) {
        assert r[i] == d[i] && d[i] in init;
        IndexOfPrefix(init, xs[n], d[i]);
        if j < |d| {
          assert r[j] == d[j] && d[j] in init;
          IndexOfPrefix(init, xs[n], d[j]);
        } else {
          IndexOfAppended(init, xs[n]);
        }
      }
    }
  }

  lemma {:induction false} IndexOfPrefix<T>(xs: seq<T>, z: T, y: T)
    requires y in xs
    ensures IndexOf(xs + [z], y) == IndexOf(xs, y)
    decreases |xs|
  {
    if xs[0] != y {
      assert (xs + [z])[1..] == xs[1..] + [z];
      IndexOfPrefix(xs[1..], z, y);
    }
  }

  lemma {:induction false} IndexOfAppended<T>(xs: seq<T>, z: T)
    requires z !in xs
    ensures IndexOf(xs + [z], z) == |xs|
    decreases |xs|
  {
    if xs != [] {
      assert (xs + [z])[1..] == xs[1..] + [z];
      IndexOfAppended(xs[1..], z);
    }
  }
}
