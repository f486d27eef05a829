/** Byte-wise string order, the order of keys made of several strings, and sorting by such a key. */
module Order {

  /** `a` sorts strictly before `b`. */
  predicate Less(a: string, b: string) {
    |b| > 0 && (|a| == 0 || a[0] < b[0] || (a[0] == b[0] && Less(a[1..], b[1..])))
  }

  /** The first place two strings differ at. */
  predicate DiffersAt(a: string, b: string, i: nat) {
    i < |a| && i < |b| && a[..i] == b[..i] && a[i] != b[i]
  }

  /** Byte order: a proper prefix comes first, and otherwise the first difference decides. */
  lemma {:induction false} LessIsByteOrder(a: string, b: string)
    ensures a < b ==> Less(a, b) && !Less(b, a)
    ensures forall i: nat | DiffersAt(a, b, i) :: Less(a, b) <==> a[i] < b[i]
  {
    forall i: nat | DiffersAt(a, b, i) && i > 0 ensures a[0] == b[0] {
      assert a[..i][0] == a[0] && b[..i][0] == b[0];
    }
    if |a| > 0 && |b| > 0 && a[0] == b[0] {
      LessIsByteOrder(a[1..], b[1..]);
      if a < b {
        assert a[1..] < b[1..];
      }
      forall i: nat | DiffersAt(a, b, i) ensures Less(a, b) <==> a[i] < b[i] {
        if i > 0 {
          assert a[1..][..i - 1] == a[..i][1..] && b[1..][..i - 1] == b[..i][1..];
          assert DiffersAt(a[1..], b[1..], i - 1);
        }
      }
    }
  }

  lemma {:induction false} LessIrreflexive(a: string)
    ensures !Less(a, a)
  {
    if |a| > 0 {
      LessIrreflexive(a[1..]);
    }
  }

  lemma {:induction false} LessTransitive(a: string, b: string, c: string)
    requires Less(a, b) && Less(b, c)
    ensures Less(a, c)
  {
    if |a| > 0 && a[0] == b[0] == c[0] {
      LessTransitive(a[1..], b[1..], c[1..]);
    }
  }

  lemma {:induction false} LessTotal(a: string, b: string)
    ensures a == b || Less(a, b) || Less(b, a)
  {
    if |a| > 0 && |b| > 0 && a[0] == b[0] {
      LessTotal(a[1..], b[1..]);
      assert a == [a[0]] + a[1..] && b == [b[0]] + b[1..];
    }
  }

  /** A compound key: its parts are compared in turn. */
  type Key = seq<string>

  predicate Before(a: Key, b: Key) {
    |b| > 0 && (|a| == 0 || Less(a[0], b[0]) || (a[0] == b[0] && Before(a[1..], b[1..])))
  }

  lemma {:induction false} BeforeIrreflexive(a: Key)
    ensures !Before(a, a)
  {
    if |a| > 0 {
      LessIrreflexive(a[0]);
      BeforeIrreflexive(a[1..]);
    }
  }

  lemma {:induction false} BeforeTransitive(a: Key, b: Key, c: Key)
    requires Before(a, b) && Before(b, c)
    ensures Before(a, c)
  {
    if |a| > 0 {
      if Less(a[0], b[0]) && Less(b[0], c[0]) {
        LessTransitive(a[0], b[0], c[0]);
      } else if a[0] == b[0] == c[0] && Before(a[1..], b[1..]) && Before(b[1..], c[1..]) {
        BeforeTransitive(a[1..], b[1..], c[1..]);
      }
    }
  }

  lemma {:induction false} BeforeTotal(a: Key, b: Key)
    ensures a == b || Before(a, b) || Before(b, a)
  {
    if |a| > 0 && |b| > 0 {
      LessTotal(a[0], b[0]);
      if a[0] == b[0] {
        BeforeTotal(a[1..], b[1..]);
        assert a == [a[0]] + a[1..] && b == [b[0]] + b[1..];
      }
    }
  }

  lemma {:induction false} BeforeAsymmetric(a: Key, b: Key)
    requires Before(a, b)
    ensures !Before(b, a)
  {
    if Before(b, a) {
      BeforeTransitive(a, b, a);
      BeforeIrreflexive(a);
    }
  }

  /** `a` is not after `b`, and `b` not after `c`. */
  lemma {:induction false} NotAfterTransitive(a: Key, b: Key, c: Key)
    requires !Before(b, a) && !Before(c, b)
    ensures !Before(c, a)
  {
    BeforeTotal(a, b);
    BeforeTotal(b, c);
    if a != b && b != c {
      BeforeTransitive(a, b, c);
      BeforeAsymmetric(a, c);
    }
  }

  // ---- sorting ----------------------------------------------------------------

  ghost predicate Sorted<T(!new)>(key: T -> Key, s: seq<T>) {
    forall i, j | 0 <= i < j < |s| :: !Before(key(s[j]), key(s[i]))
  }

  function Insert<T>(key: T -> Key, x: T, s: seq<T>): seq<T> {
    if s == [] || Before(key(x), key(s[0])) then [x] + s
    else [s[0]] + Insert(key, x, s[1..])
  }

  /** The sorted arrangement of `s`: what the library's sort by `key` returns when keys are distinct. */
  function Sort<T>(key: T -> Key, s: seq<T>): seq<T> {
    if s == [] then [] else Insert(key, s[0], Sort(key, s[1..]))
  }

  lemma {:induction false} InsertContents<T>(key: T -> Key, x: T, s: seq<T>)
    ensures multiset(Insert(key, x, s)) == multiset(s) + multiset{x}
  {
    if s != [] && !Before(key(x), key(s[0])) {
      InsertContents(key, x, s[1..]);
      assert s == [s[0]] + s[1..];
    }
  }

  lemma {:induction false} SortContents<T>(key: T -> Key, s: seq<T>)
    ensures multiset(Sort(key, s)) == multiset(s)
  {
    if s != [] {
      SortContents(key, s[1..]);
      InsertContents(key, s[0], Sort(key, s[1..]));
      assert s == [s[0]] + s[1..];
    }
  }

  lemma {:induction false} SortMembers<T>(key: T -> Key, s: seq<T>)
    ensures forall x :: x in Sort(key, s) <==> x in s
    ensures |Sort(key, s)| == |s|
  {
    SortContents(key, s);
    assert forall x :: x in Sort(key, s) <==> x in multiset(Sort(key, s));
    assert |multiset(Sort(key, s))| == |Sort(key, s)|;
  }

  lemma {:induction false} InsertSorted<T(!new)>(key: T -> Key, x: T, s: seq<T>)
    requires Sorted(key, s)
    ensures Sorted(key, Insert(key, x, s))
  {
    if s == [] {
    } else if Before(key(x), key(s[0])) {
      BeforeAsymmetric(key(x), key(s[0]));
      forall j | 0 <= j < |s|
        ensures !Before(key(s[j]), key(x))
      {
        if j > 0 {
          NotAfterTransitive(key(x), key(s[0]), key(s[j]));
        }
      }
    } else {
      var t := Insert(key, x, s[1..]);
      InsertSorted(key, x, s[1..]);
      InsertContents(key, x, s[1..]);
      forall j | 0 <= j < |t|
        ensures !Before(key(t[j]), key(s[0]))
      {
        assert t[j] in multiset(t);
        assert t[j] == x || t[j] in s[1..];
      }
    }
  }

  lemma {:induction false} SortSorted<T(!new)>(key: T -> Key, s: seq<T>)
    ensures Sorted(key, Sort(key, s))
  {
    if s != [] {
      SortSorted(key, s[1..]);
      InsertSorted(key, s[0], Sort(key, s[1..]));
    }
  }

  /** Elements of `s` with one key are one element. */
  ghost predicate KeyedBy<T(!new)>(key: T -> Key, s: seq<T>) {
    forall x, y | x in s && y in s && key(x) == key(y) :: x == y
  }

  /** There is one sorted arrangement: any sort, on any order of the input, gives the same list. */
  lemma {:induction false} SortedUnique<T(!new)>(key: T -> Key, a: seq<T>, b: seq<T>)
    requires Sorted(key, a) && Sorted(key, b) && KeyedBy(key, a)
    requires multiset(a) == multiset(b)
    ensures a == b
  {
    assert |multiset(a)| == |a| && |multiset(b)| == |b|;
    if a != [] {
      SameHead(key, a, b);
      assert a == [a[0]] + a[1..] && b == [b[0]] + b[1..];
      assert multiset(a[1..]) == multiset(a) - multiset{a[0]};
      assert multiset(b[1..]) == multiset(b) - multiset{b[0]};
      assert KeyedBy(key, a[1..]) by {
        assert forall x | x in a[1..] :: x in a;
      }
      TailSorted(key, a);
      TailSorted(key, b);
      SortedUnique(key, a[1..], b[1..]);
    }
  }

  lemma {:induction false} TailSorted<T(!new)>(key: T -> Key, s: seq<T>)
    requires Sorted(key, s) && s != []
    ensures Sorted(key, s[1..])
  {
  }

  lemma {:induction false} SameHead<T(!new)>(key: T -> Key, a: seq<T>, b: seq<T>)
    requires Sorted(key, a) && Sorted(key, b) && KeyedBy(key, a)
    requires multiset(a) == multiset(b) && a != [] && b != []
    ensures a[0] == b[0]
  {
    assert a[0] in multiset(b) && b[0] in multiset(a);
    assert a[0] in b && b[0] in a;
    BeforeTotal(key(a[0]), key(b[0]));
  }

  lemma {:induction false} SortOrderIrrelevant<T(!new)>(key: T -> Key, a: seq<T>, b: seq<T>)
    requires KeyedBy(key, a) && multiset(a) == multiset(b)
    ensures Sort(key, a) == Sort(key, b)
  {
    SortContents(key, a);
    SortContents(key, b);
    SortSorted(key, a);
    SortSorted(key, b);
    SortMembers(key, a);
    SortedUnique(key, Sort(key, a), Sort(key, b));
  }

  // ---- filtering ----------------------------------------------------------------

  function Filter<T>(p: T -> bool, s: seq<T>): (r: seq<T>)
    ensures forall x | x in r :: x in s && p(x)
    ensures forall x | x in s && p(x) :: x in r
  {
    if s == [] then [] else
      (if p(s[0]) then [s[0]] else []) + Filter(p, s[1..])
  }

  lemma {:induction false} FilterSnoc<T>(p: T -> bool, s: seq<T>, x: T)
    ensures Filter(p, s + [x]) == Filter(p, s) + if p(x) then [x] else []
  {
    if s != [] {
      assert (s + [x])[1..] == s[1..] + [x];
      FilterSnoc(p, s[1..], x);
    }
  }

  lemma {:induction false} FilterCounts<T>(p: T -> bool, s: seq<T>, x: T)
    ensures multiset(Filter(p, s))[x] == if p(x) then multiset(s)[x] else 0
  {
    if s != [] {
      FilterCounts(p, s[1..], x);
      assert s == [s[0]] + s[1..];
    }
  }

  lemma {:induction false} FilterSorted<T(!new)>(key: T -> Key, p: T -> bool, s: seq<T>)
    requires Sorted(key, s)
    ensures Sorted(key, Filter(p, s))
  {
    if s != [] {
      FilterSorted(key, p, s[1..]);
      forall x | x in Filter(p, s[1..])
        ensures !Before(key(x), key(s[0]))
      {
        var j :| 1 <= j < |s| && s[j] == x;
      }
    }
  }

  lemma {:induction false} FilterContents<T(!new)>(p: T -> bool, a: seq<T>, b: seq<T>)
    requires multiset(a) == multiset(b)
    ensures multiset(Filter(p, a)) == multiset(Filter(p, b))
  {
    forall x
      ensures multiset(Filter(p, a))[x] == multiset(Filter(p, b))[x]
    {
      FilterCounts(p, a, x);
      FilterCounts(p, b, x);
    }
  }

  /** Filtering a sorted list is sorting the filtered one. */
  lemma {:induction false} FilterSort<T(!new)>(key: T -> Key, p: T -> bool, s: seq<T>)
    requires KeyedBy(key, s)
    ensures Filter(p, Sort(key, s)) == Sort(key, Filter(p, s))
  {
    SortContents(key, s);
    SortSorted(key, s);
    SortMembers(key, s);
    FilterSorted(key, p, Sort(key, s));
    FilterContents(p, Sort(key, s), s);
    SortContents(key, Filter(p, s));
    SortSorted(key, Filter(p, s));
    SortedUnique(key, Filter(p, Sort(key, s)), Sort(key, Filter(p, s)));
  }
}
