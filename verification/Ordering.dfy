/** Sorting by an injective text, as canonical forms of unordered data are made. */
module Ordering {
  predicate TextLe(a: string, b: string) {
    a == [] || (b != [] && (a[0] < b[0] || (a[0] == b[0] && TextLe(a[1..], b[1..]))))
  }

  lemma {:induction false} TextTotal(a: string, b: string)
    ensures TextLe(a, b) || TextLe(b, a)
    ensures TextLe(a, b) && TextLe(b, a) ==> a == b
  {
    if a != [] && b != [] && a[0] == b[0] {
      TextTotal(a[1..], b[1..]);
      assert a == [a[0]] + a[1..] && b == [b[0]] + b[1..];
    }
  }

  lemma {:induction false} TextTransitive(a: string, b: string, c: string)
    requires TextLe(a, b) && TextLe(b, c)
    ensures TextLe(a, c)
  {
    if a != [] && a[0] == b[0] == c[0] {
      TextTransitive(a[1..], b[1..], c[1..]);
    }
  }

  ghost predicate Injective<T(!new)>(text: T -> string) {
    forall x, y :: text(x) == text(y) ==> x == y
  }

  ghost predicate InjectiveOn<T(!new)>(text: T -> string, s: seq<T>) {
    forall x, y :: x in s && y in s && text(x) == text(y) ==> x == y
  }

  predicate Sorted<T>(text: T -> string, s: seq<T>) {
    forall i, j :: 0 <= i < j < |s| ==> TextLe(text(s[i]), text(s[j]))
  }

  function Insert<T>(text: T -> string, x: T, s: seq<T>): seq<T> {
    if s == [] then [x]
    else if TextLe(text(x), text(s[0])) then [x] + s
    else [s[0]] + Insert(text, x, s[1..])
  }

  function Sort<T>(text: T -> string, s: seq<T>): seq<T> {
    if s == [] then [] else Insert(text, s[0], Sort(text, s[1..]))
  }

  lemma {:induction false} InsertSorts<T>(text: T -> string, x: T, s: seq<T>)
    requires Sorted(text, s)
    ensures Sorted(text, Insert(text, x, s))
    ensures multiset(Insert(text, x, s)) == multiset{x} + multiset(s)
  {
    if s != [] {
      var r := Insert(text, x, s);
      assert s == [s[0]] + s[1..];
      if TextLe(text(x), text(s[0])) {
        forall j | 0 <= j < |s| ensures TextLe(text(x), text(s[j])) {
          if j > 0 {
            TextTransitive(text(x), text(s[0]), text(s[j]));
          }
        }
      } else {
        TextTotal(text(x), text(s[0]));
        InsertSorts(text, x, s[1..]);
        var t := Insert(text, x, s[1..]);
        forall j | 0 <= j < |t| ensures TextLe(text(s[0]), text(t[j])) {
          assert t[j] in multiset(t);
          assert t[j] == x || t[j] in s[1..];
        }
      }
    }
  }

  lemma {:induction false} SortSorts<T>(text: T -> string, s: seq<T>)
    ensures Sorted(text, Sort(text, s)) && multiset(Sort(text, s)) == multiset(s)
  {
    if s != [] {
      assert s == [s[0]] + s[1..];
      SortSorts(text, s[1..]);
      InsertSorts(text, s[0], Sort(text, s[1..]));
    }
  }

  lemma {:induction false} LeastFirst<T(!new)>(text: T -> string, a: seq<T>, x: T)
    requires Sorted(text, a) && x in a
    ensures TextLe(text(a[0]), text(x))
  {
    var i :| 0 <= i < |a| && a[i] == x;
    if i == 0 {
      TextTotal(text(x), text(x));
    }
  }

  lemma {:induction false} TailMultiset<T>(s: seq<T>)
    requires s != []
    ensures multiset(s[1..]) == multiset(s) - multiset{s[0]} && s == [s[0]] + s[1..]
  {
    assert s == [s[0]] + s[1..];
  }

  lemma {:induction false} HeadsEqual<T(!new)>(text: T -> string, a: seq<T>, b: seq<T>)
    requires InjectiveOn(text, a) && Sorted(text, a) && Sorted(text, b) && multiset(a) == multiset(b) && a != [] && b != []
    ensures a[0] == b[0]
  {
    assert a[0] in multiset(b) && b[0] in multiset(a);
    LeastFirst(text, a, b[0]);
    LeastFirst(text, b, a[0]);
    TextTotal(text(a[0]), text(b[0]));
  }

  lemma {:induction false} SortedUnique<T(!new)>(text: T -> string, a: seq<T>, b: seq<T>)
    requires InjectiveOn(text, a) && Sorted(text, a) && Sorted(text, b) && multiset(a) == multiset(b)
    ensures a == b
  {
    assert |multiset(a)| == |multiset(b)|;
    if a != [] {
      HeadsEqual(text, a, b);
      TailMultiset(a);
      TailMultiset(b);
      SortedUnique(text, a[1..], b[1..]);
    }
  }

  /** Sorting forgets the order in which its input arrived, and nothing else. */
  lemma {:induction false} SortCanonical<T(!new)>(text: T -> string, a: seq<T>, b: seq<T>)
    requires InjectiveOn(text, a)
    ensures Sort(text, a) == Sort(text, b) <==> multiset(a) == multiset(b)
  {
    SortSorts(text, a);
    SortSorts(text, b);
    if multiset(a) == multiset(b) {
      var c := Sort(text, a);
      assert forall x :: x in c ==> x in multiset(c);
      SortedUnique(text, Sort(text, a), Sort(text, b));
    }
  }
}
