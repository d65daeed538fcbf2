/** Service and container names, ordered as strings.Compare orders them, and the
    one sorted list of a set of names. */
module Names {

  type Name = string

  /** The empty string is the Go program's "no service". */
  const NONE: Name := ""

  datatype Option<+T> = None | Some(value: T)

  predicate Less(a: Name, b: Name)
  {
    if b == [] then false
    else if a == [] then true
    else a[0] < b[0] || (a[0] == b[0] && Less(a[1..], b[1..]))
  }

  lemma {:induction false} LessTransitive(a: Name, b: Name, c: Name)
    requires Less(a, b) && Less(b, c)
    ensures Less(a, c)
  {
    if a != [] && a[0] == b[0] == c[0] {
      LessTransitive(a[1..], b[1..], c[1..]);
    }
  }

  lemma {:induction false} LessIrreflexive(a: Name)
    ensures !Less(a, a)
  {
    if a != [] {
      LessIrreflexive(a[1..]);
    }
  }

  lemma {:induction false} LessTotal(a: Name, b: Name)
    ensures Less(a, b) || a == b || Less(b, a)
  {
    if a != [] && b != [] && a[0] == b[0] {
      LessTotal(a[1..], b[1..]);
      assert a == [a[0]] + a[1..];
      assert b == [b[0]] + b[1..];
    }
  }

  /** At position k, where they first differ, a comes before b: it ends there, or has the lower
      character. */
  predicate Precedes(a: Name, b: Name, k: nat)
  {
    && k <= |a| && k < |b| && a[..k] == b[..k]
    && (k == |a| || a[k] < b[k])
  }

  lemma {:induction false} LessPrecedes(a: Name, b: Name) returns (k: nat)
    requires Less(a, b)
    ensures Precedes(a, b, k)
  {
    if a == [] {
      k := 0;
    } else if a[0] < b[0] {
      k := 0;
    } else {
      var i := LessPrecedes(a[1..], b[1..]);
      k := i + 1;
      assert a[..k] == [a[0]] + a[1..][..i] && b[..k] == [b[0]] + b[1..][..i];
    }
  }

  lemma {:induction false} PrecedesLess(a: Name, b: Name, k: nat)
    requires Precedes(a, b, k)
    ensures Less(a, b)
  {
    if k > 0 {
      assert a[0] == a[..k][0] == b[..k][0] == b[0];
      assert a[1..][..k - 1] == a[..k][1..] && b[1..][..k - 1] == b[..k][1..];
      PrecedesLess(a[1..], b[1..], k - 1);
    }
  }

  /** The order is that of the first difference, a proper prefix coming first. */
  lemma LessExactly(a: Name, b: Name)
    ensures Less(a, b) <==> exists k: nat :: Precedes(a, b, k)
  {
    if Less(a, b) { var k := LessPrecedes(a, b); }
    if k: nat :| Precedes(a, b, k) { PrecedesLess(a, b, k); }
  }

  predicate StrictlySorted(s: seq<Name>)
  {
    forall i, j :: 0 <= i < j < |s| ==> Less(s[i], s[j])
  }

  function Elements(s: seq<Name>): set<Name>
  {
    set n | n in s
  }

  /** Two strictly sorted lists of the same names are the same list, whatever
      order the names were met in. */
  lemma {:induction false} SortedIsUnique(a: seq<Name>, b: seq<Name>)
    requires StrictlySorted(a) && StrictlySorted(b)
    requires Elements(a) == Elements(b)
    ensures a == b
  {
    assert a != [] ==> a[0] in Elements(b);
    assert b != [] ==> b[0] in Elements(a);
    if a != [] && b != [] {
      SameHead(a, b);
      TailElements(a);
      TailElements(b);
      SortedIsUnique(a[1..], b[1..]);
    }
  }

  lemma SameHead(a: seq<Name>, b: seq<Name>)
    requires a != [] && b != []
    requires StrictlySorted(a) && StrictlySorted(b)
    requires Elements(a) == Elements(b)
    ensures a[0] == b[0]
  {
    assert a[0] in Elements(b) && b[0] in Elements(a);
    var i :| 0 <= i < |b| && b[i] == a[0];
    var j :| 0 <= j < |a| && a[j] == b[0];
    if i > 0 && j > 0 {
      LessTransitive(a[0], b[0], a[0]);
      LessIrreflexive(a[0]);
    }
  }

  lemma TailElements(a: seq<Name>)
    requires a != [] && StrictlySorted(a)
    ensures Elements(a[1..]) == Elements(a) - {a[0]}
  {
    LessIrreflexive(a[0]);
    forall n ensures n in Elements(a[1..]) <==> n in Elements(a) - {a[0]} {
      if n in a[1..] {
        var i :| 0 <= i < |a[1..]| && a[1..][i] == n;
        assert a[i + 1] == n;
      }
    }
  }

  /** A subset is no larger, and smaller unless it is the whole. */
  lemma SubsetSize<T>(a: set<T>, b: set<T>)
    requires a <= b
    ensures |a| <= |b|
    ensures a != b ==> |a| < |b|
  {
    var d := b - a;
    assert b == a + d;
    assert d == {} ==> a + d == a;
  }

  /** s with n put in its place. */
  function Insert(s: seq<Name>, n: Name): seq<Name>
  {
    if s == [] then [n]
    else if Less(n, s[0]) then [n] + s
    else [s[0]] + Insert(s[1..], n)
  }

  lemma {:induction false} InsertElements(s: seq<Name>, n: Name)
    ensures Elements(Insert(s, n)) == Elements(s) + {n}
  {
    if s != [] && !Less(n, s[0]) {
      InsertElements(s[1..], n);
      var t := Insert(s[1..], n);
      assert s == [s[0]] + s[1..];
      forall x ensures x in [s[0]] + t <==> x in Elements(s) + {n} {
        assert x in t <==> x in Elements(t);
        assert x in s[1..] <==> x in Elements(s[1..]);
      }
    }
  }

  lemma {:induction false} InsertSorted(s: seq<Name>, n: Name)
    requires StrictlySorted(s) && n !in s
    ensures StrictlySorted(Insert(s, n))
  {
    if s == [] {
    } else if Less(n, s[0]) {
      forall j | 0 < j < |s| ensures Less(n, s[j]) { LessTransitive(n, s[0], s[j]); }
    } else {
      InsertSorted(s[1..], n);
      InsertElements(s[1..], n);
      LessTotal(n, s[0]);
      var t := Insert(s[1..], n);
      forall j | 0 <= j < |t| ensures Less(s[0], t[j]) {
        assert t[j] in Elements(t);
        if t[j] != n {
          assert t[j] in s[1..];
          var k :| 0 <= k < |s[1..]| && s[1..][k] == t[j];
          assert s[k + 1] == t[j];
        }
      }
    }
  }

  /** The sorted list of a finite set of names. */
  ghost function Sorted(names: set<Name>): (r: seq<Name>)
    ensures StrictlySorted(r) && Elements(r) == names
  {
    if names == {} then []
    else
      var n :| n in names;
      var t := Sorted(names - {n});
      InsertElements(t, n);
      assert n !in Elements(t);
      InsertSorted(t, n);
      Insert(t, n)
  }

  /** slices.Sort over the keys of a map: the keys arrive in any order, the result
      is the one sorted list. */
  method SortNames(names: set<Name>) returns (r: seq<Name>)
    ensures r == Sorted(names)
  {
    r := [];
    var left := names;
    while left != {}
      invariant left <= names
      invariant StrictlySorted(r) && Elements(r) == names - left
      decreases left
    {
      var n :| n in left;
      assert n !in Elements(r);
      InsertSorted(r, n);
      InsertElements(r, n);
      r := Insert(r, n);
      left := left - {n};
    }
    SortedIsUnique(r, Sorted(names));
  }
}
