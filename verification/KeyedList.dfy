/**
  The two list operations every store in the program is built from: "update the
  first entry with this key, or append" and "keep the entries that satisfy a test".
 */
module KeyedList {
  import opened Text

  function FirstIndex<T, K(==)>(key: T -> K, xs: seq<T>, k: K): (i: nat)
    ensures i <= |xs|
    ensures i < |xs| ==> key(xs[i]) == k
    ensures forall j | 0 <= j < i :: key(xs[j]) != k
  {
    if xs == [] then 0
    else if key(xs[0]) == k then 0
    else 1 + FirstIndex(key, xs[1..], k)
  }

  function Find<T, K(==)>(key: T -> K, xs: seq<T>, k: K): Option<T> {
    var i := FirstIndex(key, xs, k);
    if i < |xs| then Some(xs[i]) else None
  }

  function Upsert<T, K(==)>(key: T -> K, xs: seq<T>, x: T): seq<T> {
    var i := FirstIndex(key, xs, key(x));
    if i < |xs| then xs[i := x] else xs + [x]
  }

  function UpsertAll<T, K(==)>(key: T -> K, xs: seq<T>, es: seq<T>): seq<T> {
    if es == [] then xs
    else Upsert(key, UpsertAll(key, xs, es[..|es| - 1]), es[|es| - 1])
  }

  function Keep<T>(p: T -> bool, xs: seq<T>): seq<T> {
    if xs == [] then []
    else (if p(xs[0]) then [xs[0]] else []) + Keep(p, xs[1..])
  }

  ghost predicate DistinctKeys<T, K(!new)>(key: T -> K, xs: seq<T>) {
    forall i, j | 0 <= i < j < |xs| :: key(xs[i]) != key(xs[j])
  }

  lemma {:induction false} FirstIndexUnique<T, K>(key: T -> K, xs: seq<T>, k: K, i: nat)
    requires i < |xs| && key(xs[i]) == k
    requires forall j | 0 <= j < i :: key(xs[j]) != k
    ensures FirstIndex(key, xs, k) == i
  {
  }

  lemma {:induction false} FindCons<T, K>(key: T -> K, first: T, rest: seq<T>, k: K)
    ensures Find(key, [first] + rest, k) == if key(first) == k then Some(first) else Find(key, rest, k)
  {
  }

  // ---- Keep ----

  lemma {:induction false} KeepMember<T>(p: T -> bool, xs: seq<T>, x: T)
    ensures x in Keep(p, xs) <==> x in xs && p(x)
  {
    if xs == [] {
    } else {
      KeepMember(p, xs[1..], x);
      assert xs == [xs[0]] + xs[1..];
    }
  }

  lemma {:induction false} KeepMembers<T>(p: T -> bool, xs: seq<T>)
    ensures forall x :: x in Keep(p, xs) <==> x in xs && p(x)
  {
    forall x
      ensures x in Keep(p, xs) <==> x in xs && p(x)
    {
      KeepMember(p, xs, x);
    }
  }

  lemma {:induction false} KeepConcat<T>(p: T -> bool, xs: seq<T>, ys: seq<T>)
    ensures Keep(p, xs + ys) == Keep(p, xs) + Keep(p, ys)
  {
    if xs == [] {
      assert xs + ys == ys;
    } else {
      KeepConcat(p, xs[1..], ys);
      var head := if p(xs[0]) then [xs[0]] else [];
      assert (xs + ys)[0] == xs[0] && (xs + ys)[1..] == xs[1..] + ys;
      Assoc(head, Keep(p, xs[1..]), Keep(p, ys));
    }
  }

  lemma {:induction false} KeepSnoc<T>(p: T -> bool, xs: seq<T>, x: T)
    ensures Keep(p, xs + [x]) == if p(x) then Keep(p, xs) + [x] else Keep(p, xs)
  {
    KeepConcat(p, xs, [x]);
    assert Keep(p, [x][1..]) == [];
  }

  /** What the next round of a filtering loop keeps. */
  lemma {:induction false} KeepNext<T>(p: T -> bool, xs: seq<T>, i: nat)
    requires i < |xs|
    ensures Keep(p, xs[..i + 1]) == if p(xs[i]) then Keep(p, xs[..i]) + [xs[i]] else Keep(p, xs[..i])
  {
    KeepSnoc(p, xs[..i], xs[i]);
    assert xs[..i + 1] == xs[..i] + [xs[i]];
  }

  /** Where an entry that passes ends up. */
  lemma {:induction false} KeepPlace<T>(p: T -> bool, xs: seq<T>, i: nat) returns (k: nat)
    requires i < |xs| && p(xs[i])
    ensures k < |Keep(p, xs)| && Keep(p, xs)[k] == xs[i] && Keep(p, xs)[..k] == Keep(p, xs[..i])
  {
    var before, after := Keep(p, xs[..i]), Keep(p, xs[i + 1..]);
    k := |before|;
    KeepNext(p, xs, i);
    KeepConcat(p, xs[..i + 1], xs[i + 1..]);
    assert xs == xs[..i + 1] + xs[i + 1..];
    assert Keep(p, xs) == (before + [xs[i]]) + after;
  }

  lemma {:induction false} KeepAll<T>(p: T -> bool, xs: seq<T>)
    requires forall x | x in xs :: p(x)
    ensures Keep(p, xs) == xs
  {
    if xs == [] {
    } else {
      KeepAll(p, xs[1..]);
      assert xs == [xs[0]] + xs[1..];
    }
  }

  lemma {:induction false} KeepNothing<T>(p: T -> bool, xs: seq<T>)
    requires forall x | x in xs :: !p(x)
    ensures Keep(p, xs) == []
  {
    if xs == [] {
    } else {
      KeepNothing(p, xs[1..]);
    }
  }

  /** Keeping by two tests that agree on every entry gives the same list. */
  lemma {:induction false} KeepSame<T>(p: T -> bool, q: T -> bool, xs: seq<T>)
    requires forall x | x in xs :: p(x) == q(x)
    ensures Keep(p, xs) == Keep(q, xs)
  {
    if xs == [] {
    } else {
      KeepSame(p, q, xs[1..]);
    }
  }

  /** Filters commute. */
  lemma {:induction false} KeepCommutes<T>(p: T -> bool, q: T -> bool, xs: seq<T>)
    ensures Keep(p, Keep(q, xs)) == Keep(q, Keep(p, xs))
  {
    if xs == [] {
    } else {
      KeepCommutes(p, q, xs[1..]);
      var rest := xs[1..];
      var one := [xs[0]];
      assert one[1..] == [];
      KeepConcat(p, if q(xs[0]) then one else [], Keep(q, rest));
      KeepConcat(q, if p(xs[0]) then one else [], Keep(p, rest));
    }
  }

  /** Filtering by a weaker test first makes no difference. */
  lemma {:induction false} KeepImplied<T>(p: T -> bool, q: T -> bool, xs: seq<T>)
    requires forall x | x in xs && p(x) :: q(x)
    ensures Keep(p, Keep(q, xs)) == Keep(p, xs)
  {
    if xs == [] {
    } else {
      KeepImplied(p, q, xs[1..]);
      var one := [xs[0]];
      assert one[1..] == [];
      KeepConcat(p, if q(xs[0]) then one else [], Keep(q, xs[1..]));
    }
  }

  /** A filter keeps the whole list exactly when every entry passes. */
  lemma {:induction false} KeepShrinks<T>(p: T -> bool, xs: seq<T>)
    ensures |Keep(p, xs)| <= |xs|
    ensures Keep(p, xs) == xs <==> forall x | x in xs :: p(x)
  {
    if xs == [] {
    } else {
      KeepShrinks(p, xs[1..]);
      assert xs == [xs[0]] + xs[1..];
    }
  }

  /** The only entry that passes is all that is kept. */
  lemma {:induction false} KeepOnly<T>(p: T -> bool, xs: seq<T>, a: nat)
    requires a < |xs| && p(xs[a]) && forall b | 0 <= b < |xs| && p(xs[b]) :: b == a
    ensures Keep(p, xs) == [xs[a]]
  {
    var before, after := xs[..a], xs[a + 1..];
    KeepNothing(p, before);
    KeepNothing(p, after);
    KeepSnoc(p, before, xs[a]);
    KeepConcat(p, before + [xs[a]], after);
    assert xs == (before + [xs[a]]) + after;
  }

  /** Of two entries that pass both are kept. */
  lemma {:induction false} KeepSeveral<T>(p: T -> bool, xs: seq<T>, a: nat, b: nat)
    requires a < b < |xs| && p(xs[a]) && p(xs[b])
    ensures |Keep(p, xs)| >= 2
  {
    KeepMember(p, xs[..b], xs[a]);
    KeepMember(p, xs[b..], xs[b]);
    KeepConcat(p, xs[..b], xs[b..]);
    assert xs == xs[..b] + xs[b..] && xs[..b][a] == xs[a] && xs[b..][0] == xs[b];
  }

  lemma {:induction false} KeepDistinct<T, K(!new)>(key: T -> K, p: T -> bool, xs: seq<T>)
    requires DistinctKeys(key, xs)
    ensures DistinctKeys(key, Keep(p, xs))
  {
    if xs == [] {
    } else {
      KeepDistinct(key, p, xs[1..]);
      KeepMembers(p, xs[1..]);
      var rest := Keep(p, xs[1..]);
      forall j | 0 <= j < |rest|
        ensures key(xs[0]) != key(rest[j])
      {
        assert rest[j] in rest;
        KeepMember(p, xs[1..], rest[j]);
        var m :| 0 <= m < |xs[1..]| && xs[1..][m] == rest[j];
        assert xs[m + 1] == rest[j];
      }
    }
  }

  // ---- Upsert ----

  lemma UpsertMembers<T, K>(key: T -> K, xs: seq<T>, x: T)
    ensures x in Upsert(key, xs, x)
    ensures forall y :: y in Upsert(key, xs, x) ==> y == x || y in xs
    ensures forall y | y in xs && key(y) != key(x) :: y in Upsert(key, xs, x)
  {
  }

  lemma UpsertDistinct<T, K(!new)>(key: T -> K, xs: seq<T>, x: T)
    requires DistinctKeys(key, xs)
    ensures DistinctKeys(key, Upsert(key, xs, x))
    ensures forall y | y in Upsert(key, xs, x) && key(y) == key(x) :: y == x
  {
  }

  lemma {:induction false} UpsertAllDistinct<T, K(!new)>(key: T -> K, xs: seq<T>, es: seq<T>)
    requires DistinctKeys(key, xs)
    ensures DistinctKeys(key, UpsertAll(key, xs, es))
  {
    if es == [] {
    } else {
      var front := es[..|es| - 1];
      UpsertAllDistinct(key, xs, front);
      UpsertDistinct(key, UpsertAll(key, xs, front), es[|es| - 1]);
    }
  }

  lemma {:induction false} UpsertAllMembers<T, K>(key: T -> K, xs: seq<T>, es: seq<T>)
    ensures forall y :: y in UpsertAll(key, xs, es) ==> y in es || y in xs
    ensures forall y | y in xs && (forall e | e in es :: key(e) != key(y)) :: y in UpsertAll(key, xs, es)
  {
    if es == [] {
    } else {
      var front := es[..|es| - 1];
      UpsertAllMembers(key, xs, front);
      UpsertMembers(key, UpsertAll(key, xs, front), es[|es| - 1]);
      assert forall e | e in front :: e in es;
    }
  }

  lemma {:induction false} UpsertAllConcat<T, K>(key: T -> K, xs: seq<T>, es: seq<T>, fs: seq<T>)
    ensures UpsertAll(key, xs, es + fs) == UpsertAll(key, UpsertAll(key, xs, es), fs)
  {
    if fs == [] {
      assert es + fs == es;
    } else {
      var front := fs[..|fs| - 1];
      UpsertAllConcat(key, xs, es, front);
      assert (es + fs)[..|es + fs| - 1] == es + front;
    }
  }

  lemma UpsertOnto<T, K>(key: T -> K, first: T, rest: seq<T>, x: T)
    ensures key(first) == key(x) ==> Upsert(key, [first] + rest, x) == [x] + rest
    ensures key(first) != key(x) ==> Upsert(key, [first] + rest, x) == [first] + Upsert(key, rest, x)
  {
  }

  lemma {:induction false} KeepCons<T>(p: T -> bool, first: T, rest: seq<T>)
    ensures Keep(p, [first] + rest) == if p(first) then [first] + Keep(p, rest) else Keep(p, rest)
  {
  }

  /** Upserting an entry that fails the filter leaves the filtered list alone; one that passes is upserted into it. */
  lemma {:induction false} KeepUpsert<T, K(!new)>(key: T -> K, p: T -> bool, xs: seq<T>, x: T)
    requires forall y | y in xs && key(y) == key(x) :: p(y) == p(x)
    ensures Keep(p, Upsert(key, xs, x)) == if p(x) then Upsert(key, Keep(p, xs), x) else Keep(p, xs)
  {
    if xs == [] {
      KeepCons(p, x, []);
    } else {
      var first, rest := xs[0], xs[1..];
      assert xs == [first] + rest;
      UpsertOnto(key, first, rest, x);
      UpsertOnto(key, first, Keep(p, rest), x);
      KeepCons(p, first, rest);
      if key(first) == key(x) {
        KeepCons(p, x, rest);
      } else {
        KeepUpsert(key, p, rest, x);
        KeepCons(p, first, Upsert(key, rest, x));
      }
    }
  }

  lemma {:induction false} KeepUpsertNext<T, K(!new)>(key: T -> K, p: T -> bool, xs: seq<T>, front: seq<T>, e: T)
    requires Keep(p, UpsertAll(key, xs, front)) == UpsertAll(key, Keep(p, xs), Keep(p, front))
    requires forall y | y in UpsertAll(key, xs, front) && key(y) == key(e) :: p(y) == p(e)
    ensures Keep(p, UpsertAll(key, xs, front + [e])) == UpsertAll(key, Keep(p, xs), Keep(p, front + [e]))
  {
    KeepUpsert(key, p, UpsertAll(key, xs, front), e);
    KeepSnoc(p, front, e);
    assert (front + [e])[..|front|] == front;
    if p(e) {
      assert (Keep(p, front) + [e])[..|Keep(p, front)|] == Keep(p, front);
    }
  }

  lemma {:induction false} KeepUpsertAll<T, K(!new)>(key: T -> K, p: T -> bool, xs: seq<T>, es: seq<T>)
    requires forall y, e | (y in xs || y in es) && e in es && key(y) == key(e) :: p(y) == p(e)
    ensures Keep(p, UpsertAll(key, xs, es)) == UpsertAll(key, Keep(p, xs), Keep(p, es))
  {
    if es == [] {
    } else {
      var front, e := es[..|es| - 1], es[|es| - 1];
      assert es == front + [e];
      assert forall y | y in front :: y in es;
      KeepUpsertAll(key, p, xs, front);
      UpsertAllMembers(key, xs, front);
      KeepUpsertNext(key, p, xs, front, e);
    }
  }

  // ---- Repeating the same upserts ----

  /** The entry that wins for key k: the last one in the batch. */
  function LastFor<T, K(==)>(key: T -> K, es: seq<T>, k: K): (r: Option<T>)
    ensures r.Some? <==> exists e :: e in es && key(e) == k
    ensures r.Some? ==> r.value in es && key(r.value) == k
  {
    if es == [] then None
    else if key(es[|es| - 1]) == k then Some(es[|es| - 1])
    else
      var r := LastFor(key, es[..|es| - 1], k);
      assert es == es[..|es| - 1] + [es[|es| - 1]];
      r
  }

  lemma {:induction false} LastForIs<T, K(!new)>(key: T -> K, es: seq<T>, i: nat)
    requires i < |es| && forall j | i < j < |es| :: key(es[j]) != key(es[i])
    ensures LastFor(key, es, key(es[i])) == Some(es[i])
  {
    if i < |es| - 1 {
      LastForIs(key, es[..|es| - 1], i);
    }
  }

  /** What a batch of upserts leaves behind: the first entry with a batch key holds that key's last value. */
  ghost predicate Settled<T, K(!new)>(key: T -> K, ys: seq<T>, es: seq<T>) {
    && (forall e | e in es :: FirstIndex(key, ys, key(e)) < |ys|)
    && (forall e | e in es ::
          var i := FirstIndex(key, ys, key(e));
          i < |ys| && LastFor(key, es, key(e)) == Some(ys[i]))
  }

  lemma {:induction false} UpsertFirstIndex<T, K(!new)>(key: T -> K, xs: seq<T>, x: T, k: K)
    ensures FirstIndex(key, xs, k) < |xs| || k == key(x) ==> FirstIndex(key, Upsert(key, xs, x), k) < |Upsert(key, xs, x)|
    ensures FirstIndex(key, xs, k) < |xs| ==> FirstIndex(key, Upsert(key, xs, x), k) == FirstIndex(key, xs, k)
    ensures k == key(x) ==> Find(key, Upsert(key, xs, x), k) == Some(x)
    ensures k != key(x) ==> Find(key, Upsert(key, xs, x), k) == Find(key, xs, k)
  {
    var ys, i, at := Upsert(key, xs, x), FirstIndex(key, xs, k), FirstIndex(key, xs, key(x));
    if i < |xs| {
      assert key(ys[i]) == k && forall j | 0 <= j < i :: key(ys[j]) != k;
      FirstIndexUnique(key, ys, k, i);
    } else if k == key(x) {
      assert ys == xs + [x];
      FirstIndexUnique(key, ys, k, |xs|);
    } else {
      forall j | 0 <= j < |ys|
        ensures key(ys[j]) != k
      {
        assert j < |xs| && j != at ==> ys[j] == xs[j];
      }
    }
  }

  lemma {:induction false} UpsertAllSettles<T, K(!new)>(key: T -> K, xs: seq<T>, es: seq<T>)
    ensures Settled(key, UpsertAll(key, xs, es), es)
  {
    if es == [] {
    } else {
      var front, last := es[..|es| - 1], es[|es| - 1];
      assert es == front + [last];
      UpsertAllSettles(key, xs, front);
      var ys := UpsertAll(key, xs, front);
      forall e | e in es
        ensures var i := FirstIndex(key, UpsertAll(key, xs, es), key(e));
                i < |UpsertAll(key, xs, es)| && LastFor(key, es, key(e)) == Some(UpsertAll(key, xs, es)[i])
      {
        UpsertFirstIndex(key, ys, last, key(e));
      }
    }
  }

  /** The last entry of a batch for a key is what is found under it afterwards. */
  lemma {:induction false} UpsertAllFinds<T, K(!new)>(key: T -> K, xs: seq<T>, es: seq<T>, i: nat)
    requires i < |es| && forall j | i < j < |es| :: key(es[j]) != key(es[i])
    ensures Find(key, UpsertAll(key, xs, es), key(es[i])) == Some(es[i])
  {
    UpsertAllSettles(key, xs, es);
    LastForIs(key, es, i);
    assert es[i] in es;
  }

  /** A filter that keeps everything under a key does not change what is found there. */
  lemma {:induction false} KeepFinds<T, K>(key: T -> K, p: T -> bool, xs: seq<T>, k: K)
    requires forall x | x in xs && key(x) == k :: p(x)
    ensures Find(key, Keep(p, xs), k) == Find(key, xs, k)
  {
    if xs == [] {
    } else {
      var first, rest := xs[0], xs[1..];
      assert xs == [first] + rest && forall x | x in rest :: x in xs;
      KeepCons(p, first, rest);
      KeepFinds(key, p, rest, k);
      FindCons(key, first, rest, k);
      FindCons(key, first, Keep(p, rest), k);
    }
  }

  lemma {:induction false} ReplayEffect<T, K(!new)>(key: T -> K, ys: seq<T>, es: seq<T>)
    requires forall e | e in es :: FirstIndex(key, ys, key(e)) < |ys|
    ensures var zs := UpsertAll(key, ys, es);
            && |zs| == |ys|
            && (forall i | 0 <= i < |ys| ::
                  && key(zs[i]) == key(ys[i])
                  && zs[i] == (if FirstIndex(key, ys, key(ys[i])) == i && LastFor(key, es, key(ys[i])).Some?
                               then LastFor(key, es, key(ys[i])).value else ys[i]))
  {
    if es == [] {
    } else {
      var front, last := es[..|es| - 1], es[|es| - 1];
      assert es == front + [last];
      ReplayEffect(key, ys, front);
      var zs := UpsertAll(key, ys, front);
      var f := FirstIndex(key, ys, key(last));
      assert last in es;
      FirstIndexUnique(key, zs, key(last), f);
    }
  }

  /** Repeating a batch of upserts changes nothing. */
  lemma {:induction false} UpsertAllIdempotent<T, K(!new)>(key: T -> K, xs: seq<T>, es: seq<T>)
    ensures UpsertAll(key, UpsertAll(key, xs, es), es) == UpsertAll(key, xs, es)
  {
    var ys := UpsertAll(key, xs, es);
    UpsertAllSettles(key, xs, es);
    ReplayEffect(key, ys, es);
    var zs := UpsertAll(key, ys, es);
    forall i | 0 <= i < |ys|
      ensures zs[i] == ys[i]
    {
      var k := key(ys[i]);
      if FirstIndex(key, ys, k) == i && LastFor(key, es, k).Some? {
        assert LastFor(key, es, k).value in es;
      }
    }
  }

  lemma DistinctSame<T, K(!new)>(key: T -> K, xs: seq<T>, x: T, y: T)
    requires DistinctKeys(key, xs)
    requires key(x) == key(y) && x != y
    ensures x !in xs || y !in xs
  {
  }

  /** With distinct keys no entry occurs twice. */
  lemma DistinctOnce<T, K(!new)>(key: T -> K, xs: seq<T>, x: T)
    requires DistinctKeys(key, xs)
    ensures multiset(xs)[x] == if x in xs then 1 else 0
    decreases |xs|
  {
    if xs == [] {
    } else {
      assert xs == [xs[0]] + xs[1..];
      DistinctOnce(key, xs[1..], x);
      if x in xs[1..] {
        assert xs[0] != x;
      }
    }
  }
}
