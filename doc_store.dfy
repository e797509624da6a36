/**
 * The document store, replaced by in-memory collections. A collection holds
 * documents keyed by id and enumerates them in one fixed order, the order in
 * which its queries return them. A query is a function on that sequence:
 * `where` is Where, `limit(n)` is Take, `orderBy(field, 'desc')` is SortDesc,
 * and `doc(id).get()` is Get.
 */
module DocStore {
  import opened Common

  /** A document snapshot: its id and its data, as `{ id: doc.id, ...doc.data() }`. */
  datatype Doc<T> = Doc(id: string, data: T)

  datatype RawCollection<T> = RawCollection(ids: seq<string>, docs: map<string, T>)

  /** The query order lists every stored document exactly once. */
  predicate WellFormed<T>(c: RawCollection<T>) {
    && (forall i, j :: 0 <= i < j < |c.ids| ==> c.ids[i] != c.ids[j])
    && c.docs.Keys == set id | id in c.ids
  }

  type Collection<T> = c: RawCollection<T> | WellFormed(c) witness RawCollection([], map[])

  /** `collection.doc(id).get()`: the snapshot, present exactly when the document exists. */
  function Get<T>(c: Collection<T>, id: string): (r: Option<Doc<T>>)
    ensures r.Some? <==> id in c.docs
    ensures r.Some? ==> r.value.id == id && r.value.data == c.docs[id]
  {
    if id in c.docs then Some(Doc(id, c.docs[id])) else None
  }

  /** `collection.get()`: every document of the collection, once each, in query order. */
  function Snapshot<T>(c: Collection<T>): (s: seq<Doc<T>>)
    ensures |s| == |c.ids|
    ensures forall i :: 0 <= i < |s| ==> s[i].id == c.ids[i]
    ensures forall d :: d in s ==> d.id in c.docs && d.data == c.docs[d.id]
    ensures forall id :: id in c.docs ==> Doc(id, c.docs[id]) in s
  {
    seq(|c.ids|, i requires 0 <= i < |c.ids| => Doc(c.ids[i], c.docs[c.ids[i]]))
  }

  /** An equality or range `where`: the elements that satisfy `p`, in their order. */
  function Where<X>(s: seq<X>, p: X -> bool): (r: seq<X>)
    ensures |r| <= |s|
    ensures forall x :: x in r ==> x in s && p(x)
    ensures forall x :: x in s && p(x) ==> x in r
    decreases |s|
  {
    if s == [] then []
    else if p(s[0]) then [s[0]] + Where(s[1..], p)
    else Where(s[1..], p)
  }

  /** Two `where` clauses in a row select what their conjunction selects, in the same order. */
  lemma {:induction false} WhereWhere<X>(s: seq<X>, p: X -> bool, q: X -> bool, both: X -> bool)
    requires forall x :: both(x) == (p(x) && q(x))
    ensures Where(Where(s, p), q) == Where(s, both)
    decreases |s|
  {
    if s != [] {
      WhereWhere(s[1..], p, q, both);
    }
  }

  /** Filters that agree on every element select the same subsequence. */
  lemma {:induction false} WhereSame<X>(s: seq<X>, p: X -> bool, q: X -> bool)
    requires forall x :: p(x) == q(x)
    ensures Where(s, p) == Where(s, q)
    decreases |s|
  {
    if s != [] {
      WhereSame(s[1..], p, q);
    }
  }

  /** A filter that admits everything keeps the query unchanged. */
  lemma {:induction false} WhereAll<X>(s: seq<X>, p: X -> bool)
    requires forall x :: p(x)
    ensures Where(s, p) == s
    decreases |s|
  {
    if s != [] {
      WhereAll(s[1..], p);
    }
  }

  /** A filter keeps every copy of an element it admits and drops every copy of one it rejects. */
  lemma {:induction false} WhereCount<X>(s: seq<X>, p: X -> bool, x: X)
    ensures multiset(Where(s, p))[x] == if p(x) then multiset(s)[x] else 0
    decreases |s|
  {
    if s != [] {
      WhereCount(s[1..], p, x);
      assert s == [s[0]] + s[1..];
    }
  }

  /** `limit(n)`: the first n elements, or all of them when there are fewer. */
  function Take<X>(s: seq<X>, n: nat): (r: seq<X>)
    ensures |r| == if |s| <= n then |s| else n
    ensures forall i :: 0 <= i < |r| ==> r[i] == s[i]
  {
    if |s| <= n then s else s[..n]
  }

  predicate SortedDesc<X>(s: seq<X>, key: X -> int) {
    forall i, j :: 0 <= i < j < |s| ==> key(s[i]) >= key(s[j])
  }

  lemma SortedTail<X>(s: seq<X>, key: X -> int)
    requires s != [] && SortedDesc(s, key)
    ensures SortedDesc(s[1..], key)
  {
    assert forall i :: 0 <= i < |s| - 1 ==> s[1..][i] == s[i + 1];
  }

  /** Putting in front an element whose key is no smaller than the head's keeps the order. */
  lemma SortedCons<X>(x: X, s: seq<X>, key: X -> int)
    requires SortedDesc(s, key) && (s == [] || key(x) >= key(s[0]))
    ensures SortedDesc([x] + s, key)
  {
    assert forall j :: 0 <= j < |s| ==> ([x] + s)[j + 1] == s[j];
    assert forall j :: 0 <= j < |s| ==> key(s[0]) >= key(s[j]);
  }

  function Insert<X>(x: X, s: seq<X>, key: X -> int): (r: seq<X>)
    requires SortedDesc(s, key)
    ensures SortedDesc(r, key)
    ensures multiset(r) == multiset(s) + multiset{x}
    ensures |r| == |s| + 1 && (r[0] == x || (|s| > 0 && r[0] == s[0]))
    decreases |s|
  {
    if s == [] || key(x) >= key(s[0]) then
      SortedCons(x, s, key);
      [x] + s
    else
      SortedTail(s, key);
      var rest := Insert(x, s[1..], key);
      assert s == [s[0]] + s[1..];
      SortedCons(s[0], rest, key);
      [s[0]] + rest
  }

  /** `orderBy(key, 'desc')`: a rearrangement of the query, largest key first. */
  function SortDesc<X>(s: seq<X>, key: X -> int): (r: seq<X>)
    ensures SortedDesc(r, key)
    ensures multiset(r) == multiset(s)
    decreases |s|
  {
    if s == [] then []
    else
      assert s == [s[0]] + s[1..];
      Insert(s[0], SortDesc(s[1..], key), key)
  }

  lemma InMultiset<X>(x: X, a: seq<X>, b: seq<X>)
    requires multiset(a) == multiset(b) && x in a
    ensures x in b
  {
    assert x in multiset(a);
  }

  /**
   * `orderBy(key, 'desc').limit(n)` keeps the n elements of largest key:
   * what it keeps comes from the query, it keeps everything when the query
   * is short, and nothing it drops has a larger key than anything it keeps.
   */
  lemma TopOfSorted<X>(query: seq<X>, key: X -> int, n: nat)
    ensures var top := Take(SortDesc(query, key), n);
      && |top| <= n
      && SortedDesc(top, key)
      && (forall x :: x in top ==> x in query)
      && (|top| < n ==> forall x :: x in query ==> x in top)
      && (forall x, y :: x in top && y in query && y !in top ==> key(y) <= key(x))
      && multiset(top) <= multiset(query)
  {
    var sorted := SortDesc(query, key);
    var top := Take(sorted, n);
    assert sorted == top + sorted[|top|..];
    assert multiset(sorted) == multiset(top) + multiset(sorted[|top|..]);
    forall x | x in top
      ensures x in query
    {
      InMultiset(x, sorted, query);
    }
    forall x, y | x in top && y in query && y !in top
      ensures key(y) <= key(x)
    {
      InMultiset(y, query, sorted);
      var k :| 0 <= k < |sorted| && sorted[k] == y;
      var i :| 0 <= i < |top| && top[i] == x;
      assert k >= |top|;
      assert key(sorted[i]) >= key(sorted[k]);
    }
    if |top| < n {
      forall x | x in query
        ensures x in top
      {
        InMultiset(x, query, sorted);
      }
    }
  }

  /** No two documents of the sequence share an id. */
  predicate UniqueIds<T>(s: seq<Doc<T>>) {
    forall i, j :: 0 <= i < j < |s| ==> s[i].id != s[j].id
  }

  /** A collection's snapshot lists each id once. */
  lemma SnapshotUnique<T>(c: Collection<T>)
    ensures UniqueIds(Snapshot(c))
  {
  }

  lemma {:induction false} CountAtMostOne<T>(s: seq<Doc<T>>, x: Doc<T>)
    requires UniqueIds(s)
    ensures multiset(s)[x] <= 1
    decreases |s|
  {
    if s != [] {
      assert s == [s[0]] + s[1..];
      assert forall i :: 0 <= i < |s| - 1 ==> s[1..][i] == s[i + 1];
      CountAtMostOne(s[1..], x);
      if s[0] == x {
        assert x !in s[1..];
      }
    }
  }

  lemma CountBelowTwo<X>(s: seq<X>)
    requires forall x :: multiset(s)[x] <= 1
    ensures forall i, j :: 0 <= i < j < |s| ==> s[i] != s[j]
  {
    forall i, j | 0 <= i < j < |s|
      ensures s[i] != s[j]
    {
      assert s == s[..j] + [s[j]] + s[j + 1..];
      assert s[i] in s[..j];
      assert multiset(s)[s[j]] == multiset(s[..j])[s[j]] + 1 + multiset(s[j + 1..])[s[j]];
    }
  }

  /** Part of a sequence with unique ids, taken with multiplicity, has unique ids too. */
  lemma SubUnique<T>(a: seq<Doc<T>>, b: seq<Doc<T>>)
    requires multiset(a) <= multiset(b) && UniqueIds(b)
    ensures UniqueIds(a)
  {
    forall x ensures multiset(a)[x] <= 1 {
      CountAtMostOne(b, x);
    }
    CountBelowTwo(a);
    forall i, j | 0 <= i < j < |a|
      ensures a[i].id != a[j].id
    {
      assert a[i] in multiset(b) && a[j] in multiset(b);
      var k :| 0 <= k < |b| && b[k] == a[i];
      var l :| 0 <= l < |b| && b[l] == a[j];
      assert k != l;
    }
  }

  /** The first n of a sorted, filtered snapshot name each document once. */
  lemma TopUnique<T>(c: Collection<T>, p: Doc<T> -> bool, key: Doc<T> -> int, n: nat)
    ensures UniqueIds(Take(SortDesc(Where(Snapshot(c), p), key), n))
  {
    var query := Where(Snapshot(c), p);
    TopOfSorted(query, key, n);
    WhereSub(Snapshot(c), p);
    SnapshotUnique(c);
    SubUnique(Take(SortDesc(query, key), n), Snapshot(c));
  }

  /** A filtered query keeps at most the copies the query had. */
  lemma WhereSub<X>(s: seq<X>, p: X -> bool)
    ensures multiset(Where(s, p)) <= multiset(s)
  {
    forall x ensures multiset(Where(s, p))[x] <= multiset(s)[x] {
      WhereCount(s, p, x);
    }
  }

  /** `.filter(x => x !== null)` over lookups that may have found nothing. */
  function Somes<X>(s: seq<Option<X>>): (r: seq<X>)
    ensures |r| <= |s|
    ensures forall x :: x in r ==> Some(x) in s
    ensures forall o :: o in s && o.Some? ==> o.value in r
    decreases |s|
  {
    if s == [] then []
    else
      assert s == [s[0]] + s[1..];
      match s[0]
      case Some(x) => [x] + Somes(s[1..])
      case None => Somes(s[1..])
  }

  /** `Promise.all(ids.map(id => collection.doc(id).get()))`: one lookup per id, in id order. */
  function GetEach<T>(c: Collection<T>, ids: seq<string>): (r: seq<Option<Doc<T>>>)
    ensures |r| == |ids|
    ensures forall i :: 0 <= i < |ids| ==> r[i] == Get(c, ids[i])
    decreases |ids|
  {
    if ids == [] then [] else [Get(c, ids[0])] + GetEach(c, ids[1..])
  }

  function IdsOf<T>(s: seq<Doc<T>>): (r: seq<string>)
    ensures |r| == |s|
    ensures forall i :: 0 <= i < |s| ==> r[i] == s[i].id
  {
    seq(|s|, i requires 0 <= i < |s| => s[i].id)
  }

  /** The ids that name a stored document. */
  function Known<T>(c: Collection<T>): string -> bool {
    id => id in c.docs
  }

  /**
   * Looking every id up and keeping the snapshots that exist yields the
   * documents of the known ids, in id order: a dangling id is dropped and an
   * id listed twice gives its document twice.
   */
  lemma {:induction false} ExistingDocs<T>(c: Collection<T>, ids: seq<string>)
    ensures IdsOf(Somes(GetEach(c, ids))) == Where(ids, Known(c))
    ensures forall d :: d in Somes(GetEach(c, ids)) ==> d.id in c.docs && d.data == c.docs[d.id]
    decreases |ids|
  {
    if ids != [] {
      ExistingDocs(c, ids[1..]);
      var tail := Somes(GetEach(c, ids[1..]));
      assert GetEach(c, ids) == [Get(c, ids[0])] + GetEach(c, ids[1..]);
      assert ([Get(c, ids[0])] + GetEach(c, ids[1..]))[1..] == GetEach(c, ids[1..]);
      if ids[0] in c.docs {
        assert Somes(GetEach(c, ids)) == [Doc(ids[0], c.docs[ids[0]])] + tail;
        assert IdsOf([Doc(ids[0], c.docs[ids[0]])] + tail) == [ids[0]] + IdsOf(tail);
      } else {
        assert Somes(GetEach(c, ids)) == tail;
      }
    }
  }
}
