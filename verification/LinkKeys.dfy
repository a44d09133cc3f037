/** Association keys and the sorted lists the adapter compares. */
module LinkKeys {
  import opened Wrappers

  type Key = string

  datatype Kind = AdmissionItem | QuantityItem

  datatype Item = Item(kind: Kind, id: string)

  const ID_LENGTH := 36

  function KindName(k: Kind): string {
    match k case AdmissionItem => "AdmissionItem" case QuantityItem => "QuantityItem"
  }

  function KeyOf(item: Item): Key {
    KindName(item.kind) + ":" + item.id
  }

  function KeysOf(items: seq<Item>): (keys: seq<Key>)
    ensures |keys| == |items|
    ensures forall k | 0 <= k < |items| :: keys[k] == KeyOf(items[k])
  {
    if items == [] then [] else [KeyOf(items[0])] + KeysOf(items[1..])
  }

  /** The item lists the adapter accepts: identities are unique and of full length. */
  predicate ValidItems(items: seq<Item>) {
    && 1 <= |items| <= 100
    && (forall k | 0 <= k < |items| :: |items[k].id| == ID_LENGTH)
    && (forall i, j | 0 <= i < j < |items| :: items[i].id != items[j].id)
  }

  lemma KeyDeterminesId(a: Item, b: Item)
    requires |a.id| == |b.id| == ID_LENGTH && KeyOf(a) == KeyOf(b)
    ensures a.id == b.id
  {
    assert KeyOf(a)[|KeyOf(a)| - ID_LENGTH..] == a.id;
    assert KeyOf(b)[|KeyOf(b)| - ID_LENGTH..] == b.id;
  }

  ghost predicate Distinct(s: seq<Key>) {
    forall i, j | 0 <= i < j < |s| :: s[i] != s[j]
  }

  lemma ItemKeysAreDistinct(items: seq<Item>)
    requires ValidItems(items)
    ensures Distinct(KeysOf(items))
  {
    forall i, j | 0 <= i < j < |items|
      ensures KeysOf(items)[i] != KeysOf(items)[j]
    {
      assert items[i].id != items[j].id;
      if KeyOf(items[i]) == KeyOf(items[j]) {
        KeyDeterminesId(items[i], items[j]);
      }
    }
  }

  /** Items with different identities have different keys. */
  lemma DisjointItemsHaveDisjointKeys(p: seq<Item>, q: seq<Item>)
    requires ValidItems(p) && ValidItems(q)
    requires forall i, j | 0 <= i < |p| && 0 <= j < |q| :: p[i].id != q[j].id
    ensures forall key :: !(key in KeysOf(p) && key in KeysOf(q))
  {
    forall key | key in KeysOf(p)
      ensures key !in KeysOf(q)
    {
      var i :| 0 <= i < |p| && KeysOf(p)[i] == key;
      forall j | 0 <= j < |q|
        ensures KeysOf(q)[j] != key
      {
        assert p[i].id != q[j].id;
        if KeyOf(p[i]) == KeyOf(q[j]) {
          KeyDeterminesId(p[i], q[j]);
        }
      }
    }
  }

  // ---- Order -----------------------------------------------------------------------------------------

  predicate Less(a: Key, b: Key) {
    b != "" && (a == "" || a[0] < b[0] || (a[0] == b[0] && Less(a[1..], b[1..])))
  }

  lemma {:induction false} LessTotal(a: Key, b: Key)
    ensures a == b || Less(a, b) || Less(b, a)
  {
    if a != "" && b != "" && a[0] == b[0] {
      LessTotal(a[1..], b[1..]);
      assert a == [a[0]] + a[1..] && b == [b[0]] + b[1..];
    }
  }

  lemma {:induction false} LessTransitive(a: Key, b: Key, c: Key)
    requires Less(a, b) && Less(b, c)
    ensures Less(a, c)
  {
    if a != "" && a[0] == b[0] == c[0] {
      LessTransitive(a[1..], b[1..], c[1..]);
    }
  }

  lemma {:induction false} LessIrreflexive(a: Key)
    ensures !Less(a, a)
  {
    if a != "" {
      LessIrreflexive(a[1..]);
    }
  }

  /** Strictly ascending, as a sorted list without duplicates is. */
  ghost predicate Ordered(s: seq<Key>) {
    forall i, j | 0 <= i < j < |s| :: Less(s[i], s[j])
  }

  function Insert(s: seq<Key>, k: Key): seq<Key> {
    if s == [] || !Less(s[0], k) then [k] + s else [s[0]] + Insert(s[1..], k)
  }

  function Sort(s: seq<Key>): seq<Key> {
    if s == [] then [] else Insert(Sort(s[..|s| - 1]), s[|s| - 1])
  }

  lemma {:induction false} InsertMembers(s: seq<Key>, k: Key)
    ensures forall x :: x in Insert(s, k) <==> x in s || x == k
  {
    if !(s == [] || !Less(s[0], k)) {
      InsertMembers(s[1..], k);
      assert s == [s[0]] + s[1..];
    }
  }

  lemma {:induction false} InsertOrdered(s: seq<Key>, k: Key)
    requires Ordered(s) && k !in s
    ensures Ordered(Insert(s, k))
  {
    if s == [] {
    } else if !Less(s[0], k) {
      LessTotal(s[0], k);
      assert s[0] in s;
      forall j | 0 <= j < |s|
        ensures Less(k, s[j])
      {
        if j > 0 {
          LessTransitive(k, s[0], s[j]);
        }
      }
    } else {
      InsertOrdered(s[1..], k);
      InsertMembers(s[1..], k);
      var t := Insert(s[1..], k);
      forall j | 0 <= j < |t|
        ensures Less(s[0], t[j])
      {
        assert t[j] in t;
        if t[j] != k {
          var i :| 0 <= i < |s[1..]| && s[1..][i] == t[j];
          assert Less(s[0], s[i + 1]);
        }
      }
    }
  }

  lemma {:induction false} SortMembers(s: seq<Key>)
    ensures forall x :: x in Sort(s) <==> x in s
  {
    if s != [] {
      var init, last := s[..|s| - 1], s[|s| - 1];
      SortMembers(init);
      InsertMembers(Sort(init), last);
      assert s == init + [last];
    }
  }

  lemma {:induction false} SortOrdered(s: seq<Key>)
    requires Distinct(s)
    ensures Ordered(Sort(s))
  {
    if s != [] {
      var init, last := s[..|s| - 1], s[|s| - 1];
      SortOrdered(init);
      SortMembers(init);
      assert last !in init;
      InsertOrdered(Sort(init), last);
    }
  }

  lemma OrderedDistinct(s: seq<Key>)
    requires Ordered(s)
    ensures Distinct(s)
  {
    forall i, j | 0 <= i < j < |s|
      ensures s[i] != s[j]
    {
      LessIrreflexive(s[i]);
    }
  }

  /** A strictly ascending list is determined by its members. */
  lemma {:induction false} OrderedUnique(s: seq<Key>, t: seq<Key>)
    requires Ordered(s) && Ordered(t) && forall x :: x in s <==> x in t
    ensures s == t
  {
    if s == [] || t == [] {
      if s != [] {
        HasMember(s);
      }
      if t != [] {
        HasMember(t);
      }
    } else {
      FirstIsLeast(s, t[0]);
      FirstIsLeast(t, s[0]);
      assert s[0] in s && t[0] in t;
      if Less(s[0], t[0]) && Less(t[0], s[0]) {
        LessTransitive(s[0], t[0], s[0]);
        LessIrreflexive(s[0]);
      }
      forall x
        ensures x in s[1..] <==> x in t[1..]
      {
        TailMembers(s, x);
        TailMembers(t, x);
      }
      OrderedUnique(s[1..], t[1..]);
      assert s == [s[0]] + s[1..] && t == [t[0]] + t[1..];
    }
  }

  lemma HasMember(s: seq<Key>)
    requires s != []
    ensures exists x :: x in s
  {
    assert s[0] in s;
  }

  lemma FirstIsLeast(s: seq<Key>, x: Key)
    requires Ordered(s) && x in s
    ensures s[0] == x || Less(s[0], x)
  {
    var i :| 0 <= i < |s| && s[i] == x;
    assert i > 0 ==> Less(s[0], s[i]);
  }

  lemma TailMembers(s: seq<Key>, x: Key)
    requires Ordered(s) && s != []
    ensures x in s[1..] <==> x in s && x != s[0]
  {
    assert s == [s[0]] + s[1..];
    OrderedDistinct(s);
    forall j | 0 <= j < |s[1..]|
      ensures s[1..][j] != s[0]
    {
      assert s[0] != s[j + 1];
    }
  }

  function Without(s: seq<Key>, k: Key): seq<Key> {
    if s == [] then [] else (if s[0] == k then [] else [s[0]]) + Without(s[1..], k)
  }

  lemma {:induction false} WithoutFacts(s: seq<Key>, k: Key)
    requires Ordered(s)
    ensures Ordered(Without(s, k))
    ensures forall x :: x in Without(s, k) <==> x in s && x != k
  {
    if s != [] {
      WithoutFacts(s[1..], k);
      var t := Without(s[1..], k);
      assert s == [s[0]] + s[1..];
      forall j | 0 <= j < |t|
        ensures Less(s[0], t[j])
      {
        assert t[j] in t;
        var i :| 0 <= i < |s[1..]| && s[1..][i] == t[j];
        assert Less(s[0], s[i + 1]);
      }
    }
  }

  /** The source's `[...links, key].sort()` on an already sorted list. */
  lemma AppendThenSort(links: seq<Key>, k: Key)
    requires Ordered(links) && k !in links
    ensures Ordered(Sort(links + [k])) && forall x :: x in Sort(links + [k]) <==> x in links || x == k
  {
    OrderedDistinct(links);
    assert Distinct(links + [k]) by {
      forall i, j | 0 <= i < j < |links + [k]|
        ensures (links + [k])[i] != (links + [k])[j]
      {
        assert i < |links| && links[i] in links;
      }
    }
    SortOrdered(links + [k]);
    SortMembers(links + [k]);
  }
}
