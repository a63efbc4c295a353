/** The storefront's product strips: drop archived products, sort a copy by a
 *  key in descending order with JavaScript's stable `Array.prototype.sort`, and
 *  show the first `n`. The sort is an insertion sort, which is stable; its
 *  result is characterised by the lemmas below.
 */
module ProductSelection {
  import opened Common
  import opened Catalog

  const Archived := "archived"

  /** `filter(p => p.status !== "archived")`. */
  function NotArchived(products: seq<Product>): (r: seq<Product>)
    ensures |r| <= |products|
    ensures forall i :: 0 <= i < |r| ==> r[i].status != Archived && r[i] in products
    ensures forall p :: p in products && p.status != Archived ==> p in r
    ensures forall p :: p in r ==> p.status != Archived && p in products
    ensures (forall i :: 0 <= i < |products| ==> products[i].status != Archived) ==> r == products
  {
    if products == [] then []
    else
      var head := if products[0].status != Archived then [products[0]] else [];
      var rest := NotArchived(products[1..]);
      assert forall p :: p in products <==> p == products[0] || p in products[1..];
      assert forall p :: p in head + rest <==> p in head || p in rest;
      head + rest
  }

  /** The filter keeps each live product as many times as the list has it, and
   *  no archived one. */
  lemma {:induction false} NotArchivedCounts(products: seq<Product>)
    ensures forall p :: multiset(NotArchived(products))[p] == (if p.status != Archived then multiset(products)[p] else 0)
  {
    if products != [] {
      var x, tail := products[0], products[1..];
      assert products == [x] + tail;
      NotArchivedCons(x, tail);
      NotArchivedCounts(tail);
      CountsStep(x, tail, if x.status != Archived then [x] else [], NotArchived(tail));
    }
  }

  /** One step of `NotArchivedCounts`: putting `x` in front of the list and, when it
   *  is live, in front of the filtered list keeps the counts related. */
  lemma CountsStep(x: Product, tail: seq<Product>, head: seq<Product>, rest: seq<Product>)
    requires head == if x.status != Archived then [x] else []
    requires forall p :: multiset(rest)[p] == (if p.status != Archived then multiset(tail)[p] else 0)
    ensures forall p :: multiset(head + rest)[p] == (if p.status != Archived then multiset([x] + tail)[p] else 0)
  {
    forall p: Product ensures multiset(head + rest)[p] == (if p.status != Archived then multiset([x] + tail)[p] else 0) {
      assert multiset(head + rest)[p] == multiset(head)[p] + multiset(rest)[p];
      assert multiset([x] + tail)[p] == multiset([x])[p] + multiset(tail)[p];
    }
  }

  /** The filter works list by list: the live products of `a + b` are those of
   *  `a` followed by those of `b`, so list order is kept. */
  lemma {:induction false} NotArchivedAppend(a: seq<Product>, b: seq<Product>)
    ensures NotArchived(a + b) == NotArchived(a) + NotArchived(b)
  {
    if a == [] {
      assert a + b == b;
    } else {
      var x, t := a[0], a[1..];
      assert a == [x] + t;
      assert a + b == [x] + (t + b);
      var h := if x.status != Archived then [x] else [];
      var ft, fb := NotArchived(t), NotArchived(b);
      NotArchivedCons(x, t);
      NotArchivedCons(x, t + b);
      NotArchivedAppend(t, b);
      calc {
        NotArchived(a + b);
        NotArchived([x] + (t + b));
        h + NotArchived(t + b);
        h + (ft + fb);
        { SeqAssoc(h, ft, fb); }
        (h + ft) + fb;
        NotArchived([x] + t) + fb;
        NotArchived(a) + fb;
      }
    }
  }

  lemma SeqAssoc(p: seq<Product>, q: seq<Product>, r: seq<Product>)
    ensures p + (q + r) == (p + q) + r
  {
  }

  /** One step of the filter on a list with head `x`. */
  lemma NotArchivedCons(x: Product, t: seq<Product>)
    ensures NotArchived([x] + t) == (if x.status != Archived then [x] else []) + NotArchived(t)
  {
    assert ([x] + t)[1..] == t;
  }

  predicate SortedDesc(s: seq<Product>, key: Product -> int)
  {
    forall i, j :: 0 <= i < j < |s| ==> key(s[i]) >= key(s[j])
  }

  /** Puts `x` after every element whose key is at least its own. */
  function Insert(x: Product, t: seq<Product>, key: Product -> int): (r: seq<Product>)
    ensures multiset(r) == multiset(t) + multiset{x}
    ensures |r| == |t| + 1
    ensures forall i :: 0 <= i < |r| ==> r[i] == x || r[i] in t
  {
    if t == [] then [x]
    else if key(t[0]) >= key(x) then
      assert t == [t[0]] + t[1..];
      [t[0]] + Insert(x, t[1..], key)
    else [x] + t
  }

  /** The stable descending sort: each element is inserted, in input order, behind
   *  the ones already placed with a key at least as large. */
  function SortDesc(s: seq<Product>, key: Product -> int): (r: seq<Product>)
    ensures multiset(r) == multiset(s)
    ensures |r| == |s|
  {
    if s == [] then []
    else
      assert s == s[..|s| - 1] + [s[|s| - 1]];
      Insert(s[|s| - 1], SortDesc(s[..|s| - 1], key), key)
  }

  lemma {:induction false} InsertSorted(x: Product, t: seq<Product>, key: Product -> int)
    requires SortedDesc(t, key)
    ensures SortedDesc(Insert(x, t, key), key)
  {
    if t != [] && key(t[0]) >= key(x) {
      var u := Insert(x, t[1..], key);
      assert SortedDesc(t[1..], key);
      InsertSorted(x, t[1..], key);
      InsertHeadSorted(t[0], u, x, t[1..], key);
    } else if t != [] {
      forall j | 0 < j < |t| + 1 ensures key(([x] + t)[0]) >= key(([x] + t)[j]) {
        assert ([x] + t)[j] == t[j - 1];
      }
    }
  }

  /** Putting `a` in front of a sorted `u` whose elements come from `x` and `rest`,
   *  none of which outranks `a`, keeps it sorted. */
  lemma InsertHeadSorted(a: Product, u: seq<Product>, x: Product, rest: seq<Product>, key: Product -> int)
    requires SortedDesc(u, key)
    requires key(a) >= key(x) && forall i :: 0 <= i < |rest| ==> key(a) >= key(rest[i])
    requires forall i :: 0 <= i < |u| ==> u[i] == x || u[i] in rest
    ensures SortedDesc([a] + u, key)
  {
    var r := [a] + u;
    forall i, j | 0 <= i < j < |r| ensures key(r[i]) >= key(r[j]) {
      assert r[j] == u[j - 1];
      if i > 0 {
        assert r[i] == u[i - 1];
      }
    }
  }

  /** The sort's output is in descending key order. */
  lemma {:induction false} SortDescSorted(s: seq<Product>, key: Product -> int)
    ensures SortedDesc(SortDesc(s, key), key)
  {
    if s != [] {
      SortDescSorted(s[..|s| - 1], key);
      InsertSorted(s[|s| - 1], SortDesc(s[..|s| - 1], key), key);
    }
  }

  /** The elements of `s` whose key is `v`, in order. */
  function WithKey(s: seq<Product>, key: Product -> int, v: int): seq<Product>
  {
    if s == [] then [] else (if key(s[0]) == v then [s[0]] else []) + WithKey(s[1..], key, v)
  }

  lemma WithKeyCons(a: Product, u: seq<Product>, key: Product -> int, v: int)
    ensures WithKey([a] + u, key, v) == (if key(a) == v then [a] else []) + WithKey(u, key, v)
  {
    assert ([a] + u)[1..] == u;
  }

  lemma {:induction false} WithKeySnoc(s: seq<Product>, b: Product, key: Product -> int, v: int)
    ensures WithKey(s + [b], key, v) == WithKey(s, key, v) + (if key(b) == v then [b] else [])
  {
    if s == [] {
      assert [] + [b] == [b] && [b][1..] == [];
    } else {
      assert (s + [b])[1..] == s[1..] + [b];
      WithKeySnoc(s[1..], b, key, v);
      var head := if key(s[0]) == v then [s[0]] else [];
      var tail := if key(b) == v then [b] else [];
      assert head + (WithKey(s[1..], key, v) + tail) == (head + WithKey(s[1..], key, v)) + tail;
    }
  }

  lemma {:induction false} WithKeyNone(t: seq<Product>, key: Product -> int, v: int)
    requires forall i :: 0 <= i < |t| ==> key(t[i]) != v
    ensures WithKey(t, key, v) == []
  {
    if t != [] {
      WithKeyNone(t[1..], key, v);
    }
  }

  /** Inserting `x` into a sorted sequence puts it after every element with its key. */
  lemma {:induction false} InsertStable(x: Product, t: seq<Product>, key: Product -> int, v: int)
    requires SortedDesc(t, key)
    ensures WithKey(Insert(x, t, key), key, v) == WithKey(t, key, v) + (if key(x) == v then [x] else [])
  {
    if t == [] {
      assert [x][..0] == [];
    } else if key(t[0]) >= key(x) {
      assert SortedDesc(t[1..], key);
      InsertStable(x, t[1..], key, v);
      InsertStableBehind(x, t, key, v);
    } else {
      InsertStableInFront(x, t, key, v);
    }
  }

  lemma InsertStableBehind(x: Product, t: seq<Product>, key: Product -> int, v: int)
    requires t != [] && key(t[0]) >= key(x)
    requires WithKey(Insert(x, t[1..], key), key, v) == WithKey(t[1..], key, v) + (if key(x) == v then [x] else [])
    ensures WithKey(Insert(x, t, key), key, v) == WithKey(t, key, v) + (if key(x) == v then [x] else [])
  {
    assert Insert(x, t, key) == [t[0]] + Insert(x, t[1..], key);
    assert t == [t[0]] + t[1..];
    WithKeyPrepend(t[0], Insert(x, t[1..], key), t[1..], if key(x) == v then [x] else [], key, v);
  }

  /** Putting the same element in front of `u` and `w` keeps `u`'s extra tail. */
  lemma WithKeyPrepend(a: Product, u: seq<Product>, w: seq<Product>, tail: seq<Product>, key: Product -> int, v: int)
    requires WithKey(u, key, v) == WithKey(w, key, v) + tail
    ensures WithKey([a] + u, key, v) == WithKey([a] + w, key, v) + tail
  {
    var head := if key(a) == v then [a] else [];
    WithKeyCons(a, u, key, v);
    WithKeyCons(a, w, key, v);
    assert head + (WithKey(w, key, v) + tail) == (head + WithKey(w, key, v)) + tail;
  }

  lemma InsertStableInFront(x: Product, t: seq<Product>, key: Product -> int, v: int)
    requires SortedDesc(t, key) && t != [] && key(t[0]) < key(x)
    ensures WithKey(Insert(x, t, key), key, v) == WithKey(t, key, v) + (if key(x) == v then [x] else [])
  {
    WithKeyCons(x, t, key, v);
    if key(x) == v {
      WithKeyNone(t, key, v);
    } else {
      assert WithKey(t, key, v) + [] == WithKey(t, key, v);
    }
  }

  /** The sort is stable: the elements sharing a key keep their input order. */
  lemma {:induction false} SortDescStable(s: seq<Product>, key: Product -> int, v: int)
    ensures WithKey(SortDesc(s, key), key, v) == WithKey(s, key, v)
  {
    if s != [] {
      assert s == s[..|s| - 1] + [s[|s| - 1]];
      WithKeySnoc(s[..|s| - 1], s[|s| - 1], key, v);
      SortDescStable(s[..|s| - 1], key, v);
      SortDescSorted(s[..|s| - 1], key);
      InsertStable(s[|s| - 1], SortDesc(s[..|s| - 1], key), key, v);
    }
  }

  /** The first `n` elements, `slice(0, n)`. */
  function Take(s: seq<Product>, n: nat): (r: seq<Product>)
    ensures |r| == Min(n, |s|) && r == s[..|r|]
  {
    s[..Min(n, |s|)]
  }

  /** The products a strip shows. */
  function Select(products: seq<Product>, key: Product -> int, n: nat): seq<Product>
  {
    Take(SortDesc(NotArchived(products), key), n)
  }

  /** What a strip shows: at most `n` products, none archived, each live product
   *  at most as often as the list has it, in descending key order, no hidden
   *  product outranking a shown one, and for every key the products shown with it
   *  are the first ones in list order. Together these fix the strip, including
   *  which of several products tied at the cut are shown. */
  lemma SelectSpec(products: seq<Product>, key: Product -> int, n: nat)
    ensures var r := Select(products, key, n);
      && |r| == Min(n, |NotArchived(products)|)
      && (forall i :: 0 <= i < |r| ==> r[i].status != Archived && r[i] in products)
      && multiset(r) <= multiset(NotArchived(products))
      && SortedDesc(r, key)
      && (forall p, q :: p in NotArchived(products) && p !in r && q in r ==> key(q) >= key(p))
      && (forall v :: WithKey(r, key, v) <= WithKey(NotArchived(products), key, v))
  {
    var live := NotArchived(products);
    var sorted := SortDesc(live, key);
    var r := Select(products, key, n);
    SortDescSorted(live, key);
    SameElements(live, sorted);
    assert r == sorted[..|r|];
    PrefixSorted(sorted, |r|, key);
    forall i | 0 <= i < |r| ensures r[i].status != Archived && r[i] in products {
      assert r[i] == sorted[i] && sorted[i] in sorted;
    }
    PrefixOutranks(sorted, |r|, key);
    assert sorted == r + sorted[|r|..];
    forall v ensures WithKey(r, key, v) <= WithKey(live, key, v) {
      WithKeyAppend(r, sorted[|r|..], key, v);
      SortDescStable(live, key, v);
    }
  }

  lemma {:induction false} WithKeyAppend(a: seq<Product>, b: seq<Product>, key: Product -> int, v: int)
    ensures WithKey(a + b, key, v) == WithKey(a, key, v) + WithKey(b, key, v)
  {
    if a == [] {
      assert [] + b == b;
    } else {
      assert (a + b)[1..] == a[1..] + b;
      WithKeyAppend(a[1..], b, key, v);
      var head := if key(a[0]) == v then [a[0]] else [];
      assert head + (WithKey(a[1..], key, v) + WithKey(b, key, v))
          == (head + WithKey(a[1..], key, v)) + WithKey(b, key, v);
    }
  }

  /** Sequences with the same multiset have the same elements. */
  lemma SameElements(a: seq<Product>, b: seq<Product>)
    requires multiset(a) == multiset(b)
    ensures forall x :: x in a <==> x in b
  {
    forall x ensures x in a <==> x in b {
      assert x in a <==> x in multiset(a);
      assert x in b <==> x in multiset(b);
    }
  }

  /** A prefix of a sorted sequence is sorted. */
  lemma PrefixSorted(s: seq<Product>, m: nat, key: Product -> int)
    requires SortedDesc(s, key) && m <= |s|
    ensures SortedDesc(s[..m], key)
  {
    forall i, j | 0 <= i < j < m ensures key(s[..m][i]) >= key(s[..m][j]) {
      assert s[..m][i] == s[i] && s[..m][j] == s[j];
    }
  }

  /** In a sorted sequence, every element of a prefix ranks at least as high as any
   *  element left out of it. */
  lemma PrefixOutranks(s: seq<Product>, m: nat, key: Product -> int)
    requires SortedDesc(s, key) && m <= |s|
    ensures forall p, q :: p in s && p !in s[..m] && q in s[..m] ==> key(q) >= key(p)
  {
    forall p, q | p in s && p !in s[..m] && q in s[..m] ensures key(q) >= key(p) {
      var k :| 0 <= k < |s| && s[k] == p;
      var i :| 0 <= i < m && s[..m][i] == q;
      assert s[..m][i] == s[i];
    }
  }

  /** The products shown with key `v` appear in the order the list has them. */
  lemma SelectKeepsTieOrder(products: seq<Product>, key: Product -> int, n: nat, v: int)
    requires n >= |NotArchived(products)|
    ensures WithKey(Select(products, key, n), key, v) == WithKey(NotArchived(products), key, v)
  {
    var sorted := SortDesc(NotArchived(products), key);
    assert Select(products, key, n) == sorted;
    SortDescStable(NotArchived(products), key, v);
  }

  /** A strip's caption, "Showing a of b products", counts every product in the
   *  list, archived or not: its first number is `Min(|products|, n)`. That
   *  number bounds what is shown, and overstates it when archived products are
   *  counted. */
  lemma CaptionCountsArchived(products: seq<Product>, key: Product -> int, n: nat)
    ensures |Select(products, key, n)| <= Min(|products|, n)
    ensures |products| == 1 && products[0].status == Archived ==>
      |Select(products, key, n)| == 0 && (n >= 1 ==> Min(|products|, n) == 1)
  {
    if |products| == 1 && products[0].status == Archived {
      assert NotArchived(products) == [] + NotArchived(products[1..]);
    }
  }
}
