/** What a lister's List call yields: the selected objects of a snapshot in no particular order. */
module Listings {
  import opened Types

  ghost predicate NoDup<T>(s: seq<T>) {
    forall i, j :: 0 <= i < j < |s| ==> s[i] != s[j]
  }

  /** Does `order` list every key once? */
  ghost predicate IsListing(order: seq<Key>, keys: set<Key>) {
    NoDup(order) && forall k :: k in order <==> k in keys
  }

  function Filter<T>(s: seq<T>, p: T -> bool): seq<T> {
    if s == [] then []
    else (if p(s[0]) then [s[0]] else []) + Filter(s[1..], p)
  }

  lemma {:induction false} FilterMembers<T>(s: seq<T>, p: T -> bool)
    ensures forall x :: x in Filter(s, p) <==> x in s && p(x)
    ensures NoDup(s) ==> NoDup(Filter(s, p))
  {
    if s != [] {
      FilterMembers(s[1..], p);
      assert s == [s[0]] + s[1..];
      if NoDup(s) {
        assert s[0] !in s[1..];
      }
    }
  }

  lemma {:induction false} NoDupLength<T>(s: seq<T>, elements: set<T>)
    requires NoDup(s) && forall x :: x in s <==> x in elements
    ensures |s| == |elements|
  {
    if s == [] {
      assert elements == {};
    } else {
      assert s == [s[0]] + s[1..];
      assert s[0] !in s[1..];
      NoDupLength(s[1..], elements - {s[0]});
    }
  }

  lemma {:induction false} NoDupMultiset<T>(s: seq<T>, elements: set<T>)
    requires NoDup(s) && forall x :: x in s <==> x in elements
    ensures multiset(s) == multiset(elements)
  {
    if s == [] {
      assert elements == {};
    } else {
      assert s == [s[0]] + s[1..];
      assert s[0] !in s[1..];
      NoDupMultiset(s[1..], elements - {s[0]});
      assert elements == (elements - {s[0]}) + {s[0]};
    }
  }

  /* ---- Names ---- */

  function NamesOf(keys: seq<Key>): seq<string> {
    if keys == [] then [] else [keys[0].name] + NamesOf(keys[1..])
  }

  lemma {:induction false} NamesOfMembers(keys: seq<Key>, namespace: string)
    requires forall k :: k in keys ==> k.namespace == namespace
    ensures forall name :: name in NamesOf(keys) <==> Key(namespace, name) in keys
    ensures NoDup(keys) ==> NoDup(NamesOf(keys))
  {
    if keys != [] {
      NamesOfMembers(keys[1..], namespace);
      assert keys == [keys[0]] + keys[1..];
      if NoDup(keys) {
        assert keys[0] !in keys[1..];
      }
    }
  }

  /* ---- Sorting strings: bytewise lexicographic order ---- */

  predicate StrLe(a: string, b: string) {
    if a == "" then true
    else if b == "" then false
    else if a[0] != b[0] then a[0] < b[0]
    else StrLe(a[1..], b[1..])
  }

  lemma {:induction false} StrLeTotal(a: string, b: string)
    ensures StrLe(a, b) || StrLe(b, a)
    ensures StrLe(a, b) && StrLe(b, a) ==> a == b
    ensures StrLe(a, a)
  {
    if a != "" && b != "" && a[0] == b[0] {
      StrLeTotal(a[1..], b[1..]);
    }
    if a != "" {
      StrLeTotal(a[1..], a[1..]);
    }
  }

  lemma {:induction false} StrLeTransitive(a: string, b: string, c: string)
    requires StrLe(a, b) && StrLe(b, c)
    ensures StrLe(a, c)
  {
    if a != "" && b != "" && c != "" && a[0] == b[0] == c[0] {
      StrLeTransitive(a[1..], b[1..], c[1..]);
    }
  }

  ghost predicate Sorted(names: seq<string>) {
    forall i, j :: 0 <= i < j < |names| ==> StrLe(names[i], names[j])
  }

  function InsertName(x: string, names: seq<string>): (r: seq<string>)
    ensures multiset(r) == multiset([x]) + multiset(names)
  {
    if names == [] || StrLe(x, names[0]) then [x] + names
    else
      assert names == [names[0]] + names[1..];
      [names[0]] + InsertName(x, names[1..])
  }

  lemma {:induction false} InsertNameSorted(x: string, names: seq<string>)
    requires Sorted(names)
    ensures Sorted(InsertName(x, names))
  {
    if names == [] {
    } else if StrLe(x, names[0]) {
      forall j | 0 <= j < |names| ensures StrLe(x, names[j]) {
        StrLeTotal(names[0], names[0]);
        StrLeTransitive(x, names[0], names[j]);
      }
    } else {
      InsertNameSorted(x, names[1..]);
      StrLeTotal(x, names[0]);
      var rest := InsertName(x, names[1..]);
      forall j | 0 <= j < |rest| ensures StrLe(names[0], rest[j]) {
        assert rest[j] in multiset(rest);
        assert rest[j] == x || rest[j] in multiset(names[1..]);
      }
    }
  }

  function SortNames(names: seq<string>): (r: seq<string>)
    ensures multiset(r) == multiset(names)
    ensures Sorted(r)
  {
    if names == [] then []
    else
      assert names == [names[0]] + names[1..];
      var rest := SortNames(names[1..]);
      InsertNameSorted(names[0], rest);
      InsertName(names[0], rest)
  }

  /** A library sort: all its callers know is that the result is a sorted permutation. */
  method Sort(names: seq<string>) returns (r: seq<string>)
    ensures multiset(r) == multiset(names) && Sorted(r)
  {
    r := SortNames(names);
  }

  lemma FirstIsLeast(a: seq<string>, b: seq<string>)
    requires Sorted(a) && Sorted(b) && multiset(a) == multiset(b) && a != []
    ensures b != [] && a[0] == b[0]
  {
    hide StrLe;
    assert a[0] in multiset(b) && |multiset(b)| > 0;
    assert b[0] in multiset(a);
    var i :| 0 <= i < |b| && b[i] == a[0];
    var j :| 0 <= j < |a| && a[j] == b[0];
    StrLeTotal(a[0], b[0]);
    StrLeTotal(a[0], a[0]);
  }

  /** There is only one sorted arrangement. */
  lemma {:induction false} SortedUnique(a: seq<string>, b: seq<string>)
    requires Sorted(a) && Sorted(b) && multiset(a) == multiset(b)
    ensures a == b
  {
    if a == [] {
      assert |multiset(b)| == 0;
    } else {
      hide StrLe;
      FirstIsLeast(a, b);
      assert a == [a[0]] + a[1..] && b == [b[0]] + b[1..];
      assert multiset(a[1..]) == multiset(a) - multiset{a[0]};
      assert multiset(b[1..]) == multiset(b) - multiset{b[0]};
      SortedUnique(a[1..], b[1..]);
    }
  }
}
