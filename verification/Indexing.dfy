/** Indexing a list by identity: what the index holds does not depend on the list's order. */
module Indexing {
  import opened Common

  /** Filling a map by identity, giving up at a repeated one. */
  function Indexed<T>(id: T -> string, s: seq<T>): Option<map<string, T>> {
    if s == [] then Some(map[])
    else
      var last, m := s[|s| - 1], Indexed(id, s[..|s| - 1]);
      if m.None? || id(last) in m.value then None else Some(m.value[id(last) := last])
  }

  ghost predicate Lists<T(!new)>(id: T -> string, s: seq<T>, m: map<string, T>) {
    && (forall k :: k in m ==> m[k] in s && id(m[k]) == k)
    && (forall x :: x in s ==> id(x) in m && m[id(x)] == x)
  }

  lemma {:induction false} IndexedLists<T(!new)>(id: T -> string, s: seq<T>)
    requires Indexed(id, s).Some?
    ensures Lists(id, s, Indexed(id, s).value)
  {
    if s != [] {
      var n := |s| - 1;
      IndexedLists(id, s[..n]);
      assert s == s[..n] + [s[n]];
    }
  }

  lemma {:induction false} IndexedOnce<T(!new)>(id: T -> string, s: seq<T>, x: T)
    requires Indexed(id, s).Some?
    ensures multiset(s)[x] <= 1
  {
    if s != [] {
      var n := |s| - 1;
      IndexedOnce(id, s[..n], x);
      assert s == s[..n] + [s[n]];
      if x == s[n] {
        IndexedLists(id, s[..n]);
        assert x !in s[..n];
      }
    }
  }

  /** A list of some of a's elements, none more often than in a, has an index too. */
  lemma {:induction false} PartIndexed<T(!new)>(id: T -> string, a: seq<T>, b: seq<T>)
    requires Indexed(id, a).Some? && multiset(b) <= multiset(a)
    ensures Indexed(id, b).Some?
  {
    if b != [] {
      var n := |b| - 1;
      assert b == b[..n] + [b[n]];
      PartIndexed(id, a, b[..n]);
      IndexedLists(id, a);
      IndexedLists(id, b[..n]);
      IndexedOnce(id, a, b[n]);
      var m := Indexed(id, b[..n]).value;
      assert forall y :: y in b[..n] ==> y in multiset(b);
    }
  }

  lemma {:induction false} ListsUnique<T(!new)>(id: T -> string, a: seq<T>, b: seq<T>, m: map<string, T>, n: map<string, T>)
    requires Lists(id, a, m) && Lists(id, b, n) && multiset(a) == multiset(b)
    ensures m == n
  {
    forall k | k in m ensures k in n && n[k] == m[k] {
      assert m[k] in multiset(a);
    }
    forall k | k in n ensures k in m {
      assert n[k] in multiset(b);
    }
  }

  lemma {:induction false} IndexedPermuted<T(!new)>(id: T -> string, a: seq<T>, b: seq<T>)
    requires multiset(a) == multiset(b)
    ensures Indexed(id, a) == Indexed(id, b)
  {
    if Indexed(id, a).Some? {
      PartIndexed(id, a, b);
      IndexedLists(id, a);
      IndexedLists(id, b);
      ListsUnique(id, a, b, Indexed(id, a).value, Indexed(id, b).value);
    } else if Indexed(id, b).Some? {
      PartIndexed(id, b, a);
    }
  }

  lemma {:induction false} PrefixIndexed<T(!new)>(id: T -> string, s: seq<T>, n: nat)
    requires Indexed(id, s).Some? && n <= |s|
    ensures Indexed(id, s[..n]).Some?
  {
    assert s == s[..n] + s[n..];
    PartIndexed(id, s, s[..n]);
  }

  function Where<T>(p: T -> bool, s: seq<T>): seq<T> {
    if s == [] then []
    else Where(p, s[..|s| - 1]) + (if p(s[|s| - 1]) then [s[|s| - 1]] else [])
  }

  lemma {:induction false} WhereCount<T>(p: T -> bool, s: seq<T>, x: T)
    ensures multiset(Where(p, s))[x] == if p(x) then multiset(s)[x] else 0
  {
    if s != [] {
      var n := |s| - 1;
      WhereCount(p, s[..n], x);
      assert s == s[..n] + [s[n]];
    }
  }

  lemma {:induction false} WhereMembers<T(!new)>(p: T -> bool, s: seq<T>)
    ensures forall x :: x in Where(p, s) <==> x in s && p(x)
  {
    forall x ensures x in Where(p, s) <==> x in s && p(x) {
      WhereCount(p, s, x);
      assert x in Where(p, s) <==> x in multiset(Where(p, s));
      assert x in s <==> x in multiset(s);
    }
  }

  lemma {:induction false} WhereIndexed<T(!new)>(id: T -> string, p: T -> bool, s: seq<T>)
    requires Indexed(id, s).Some?
    ensures Indexed(id, Where(p, s)).Some?
  {
    forall x ensures multiset(Where(p, s))[x] <= multiset(s)[x] {
      WhereCount(p, s, x);
    }
    PartIndexed(id, s, Where(p, s));
  }

  lemma {:induction false} WherePermuted<T(!new)>(p: T -> bool, a: seq<T>, b: seq<T>)
    requires multiset(a) == multiset(b)
    ensures multiset(Where(p, a)) == multiset(Where(p, b))
  {
    forall x ensures multiset(Where(p, a))[x] == multiset(Where(p, b))[x] {
      WhereCount(p, a, x);
      WhereCount(p, b, x);
    }
  }

  lemma {:induction false} SameMembers<T>(a: seq<T>, b: seq<T>)
    requires multiset(a) == multiset(b)
    ensures forall x :: x in a <==> x in b
  {
    forall x ensures x in a <==> x in b {
      assert x in a <==> x in multiset(a);
    }
  }

  lemma {:induction false} WhereAppend<T>(p: T -> bool, s: seq<T>, n: nat)
    requires n < |s|
    ensures s[..n + 1] == s[..n] + [s[n]]
    ensures Where(p, s[..n + 1]) == Where(p, s[..n]) + if p(s[n]) then [s[n]] else []
  {
    assert s[..n + 1][..n] == s[..n];
  }

  lemma {:induction false} IndexedAppend<T>(id: T -> string, s: seq<T>, x: T)
    requires Indexed(id, s).Some?
    ensures Indexed(id, s + [x]) == if id(x) in Indexed(id, s).value then None else Some(Indexed(id, s).value[id(x) := x])
  {
    assert (s + [x])[..|s|] == s;
  }
}
