/**
 * Strings as the Python 2 code sees them: byte strings lower-cased in the C
 * locale, ordered by Python's built-in comparison, and sorted by `sorted()`.
 */
module Text {

  /** `str.lower()` on one character: only the ASCII capitals change. */
  function LowerChar(c: char): char
  {
    if 'A' <= c <= 'Z' then (c as int + 32) as char else c
  }

  /** `str.lower()` */
  function Lower(s: string): string
  {
    seq(|s|, i requires 0 <= i < |s| => LowerChar(s[i]))
  }

  /** Python's `a < b` on strings: lexicographic on character codes, a proper prefix first. */
  predicate Less(a: string, b: string)
  {
    if |a| == 0 then |b| > 0
    else if |b| == 0 then false
    else if a[0] != b[0] then a[0] < b[0]
    else Less(a[1..], b[1..])
  }

  lemma {:induction false} LessIrreflexive(a: string)
    ensures !Less(a, a)
  {
    if |a| > 0 {
      LessIrreflexive(a[1..]);
    }
  }

  lemma {:induction false} LessTransitive(a: string, b: string, c: string)
    requires Less(a, b) && Less(b, c)
    ensures Less(a, c)
  {
    if |a| > 0 && |b| > 0 && |c| > 0 && a[0] == b[0] && b[0] == c[0] {
      LessTransitive(a[1..], b[1..], c[1..]);
    }
  }

  lemma {:induction false} LessTotal(a: string, b: string)
    ensures a == b || Less(a, b) || Less(b, a)
  {
    if |a| > 0 && |b| > 0 && a[0] == b[0] {
      LessTotal(a[1..], b[1..]);
      if a[1..] == b[1..] {
        assert a == [a[0]] + a[1..] && b == [b[0]] + b[1..];
      }
    }
  }

  /** Ascending order without repetitions, the order of `sorted(d.keys())`. */
  ghost predicate StrictlySorted(s: seq<string>)
  {
    forall i, j :: 0 <= i < j < |s| ==> Less(s[i], s[j])
  }

  /** `m` is the least element of `s`. */
  predicate IsLeast(m: string, s: set<string>)
  {
    m in s && forall x :: x in s && x != m ==> Less(m, x)
  }

  /** Every non-empty finite set of strings has a least element. */
  lemma {:induction false} MinExists(s: set<string>)
    requires s != {}
    ensures exists m :: IsLeast(m, s)
    decreases |s|
  {
    var y :| y in s;
    if s == {y} {
      assert IsLeast(y, s);
    } else {
      var rest := s - {y};
      MinExists(rest);
      var m :| IsLeast(m, rest);
      LessTotal(m, y);
      if Less(m, y) {
        assert IsLeast(m, s);
      } else {
        assert Less(y, m);
        forall x | x in s && x != y
          ensures Less(y, x)
        {
          if x != m {
            assert x in rest;
            LessTransitive(y, m, x);
          }
        }
        assert IsLeast(y, s);
      }
    }
  }

  /** `sorted(keys)`: the elements of a set in ascending order, least first. */
  ghost function Sorted(s: set<string>): (r: seq<string>)
    ensures forall i :: 0 <= i < |r| ==> r[i] in s
    ensures |r| == |s|
    decreases |s|
  {
    if s == {} then []
    else
      MinExists(s);
      var m :| IsLeast(m, s);
      [m] + Sorted(s - {m})
  }

  /** The enumeration is strictly ascending. */
  lemma {:induction false} SortedAscending(s: set<string>)
    ensures StrictlySorted(Sorted(s))
    decreases |s|
  {
    if s != {} {
      var r := Sorted(s);
      var m := r[0];
      assert r == [m] + Sorted(s - {m});
      SortedAscending(s - {m});
      assert IsLeast(m, s);
    }
  }

  /**
   * Every element is enumerated (kept apart from `Sorted`'s contract so
   * that the two directions of membership are not in scope together).
   */
  lemma {:induction false} SortedCovers(s: set<string>)
    ensures forall x :: x in s ==> x in Sorted(s)
    decreases |s|
  {
    if s != {} {
      var r := Sorted(s);
      var m := r[0];
      assert r == [m] + Sorted(s - {m});
      SortedCovers(s - {m});
      forall x | x in s
        ensures x in r
      {
        if x != m {
          assert x in Sorted(s - {m});
          var k :| 0 <= k < |Sorted(s - {m})| && Sorted(s - {m})[k] == x;
          assert r[k + 1] == x;
        }
      }
    }
  }

  lemma HeadIn(s: seq<string>)
    ensures s != [] ==> s[0] in s
  {
  }

  /** Two ascending enumerations of the same elements are the same sequence. */
  lemma {:induction false} SortedUnique(a: seq<string>, b: seq<string>)
    requires StrictlySorted(a) && StrictlySorted(b)
    requires forall x :: x in a <==> x in b
    ensures a == b
    decreases |a|
  {
    if a == [] || b == [] {
      HeadIn(a);
      HeadIn(b);
    } else {
      if a[0] != b[0] {
        assert b[0] in a;
        var i :| 0 <= i < |a| && a[i] == b[0];
        assert a[0] in b;
        var j :| 0 <= j < |b| && b[j] == a[0];
        assert Less(a[0], b[0]) && Less(b[0], a[0]);
        LessTransitive(a[0], b[0], a[0]);
        LessIrreflexive(a[0]);
      }
      forall x
        ensures x in a[1..] <==> x in b[1..]
      {
        if x in a[1..] {
          var k :| 0 <= k < |a| - 1 && a[1..][k] == x;
          assert Less(a[0], a[k + 1]);
          if x == a[0] {
            LessIrreflexive(a[0]);
          }
          assert x in b;
          var t :| 0 <= t < |b| && b[t] == x;
          assert t != 0 && b[1..][t - 1] == x;
        }
        if x in b[1..] {
          var k :| 0 <= k < |b| - 1 && b[1..][k] == x;
          assert Less(b[0], b[k + 1]);
          if x == b[0] {
            LessIrreflexive(b[0]);
          }
          assert x in a;
          var t :| 0 <= t < |a| && a[t] == x;
          assert t != 0 && a[1..][t - 1] == x;
        }
      }
      SortedUnique(a[1..], b[1..]);
      assert a == [a[0]] + a[1..] && b == [b[0]] + b[1..];
    }
  }

  /** A selection loop that computes `sorted(keys)`: it repeatedly takes the least remaining key. */
  method SortKeys(keys: set<string>) returns (r: seq<string>)
    ensures r == Sorted(keys)
  {
    r := [];
    var rest := keys;
    while rest != {}
      invariant rest <= keys
      invariant StrictlySorted(r)
      invariant forall x :: x in r <==> x in keys && x !in rest
      invariant forall i, x :: 0 <= i < |r| && x in rest ==> Less(r[i], x)
      decreases |rest|
    {
      MinExists(rest);
      var m :| IsLeast(m, rest);
      r := r + [m];
      rest := rest - {m};
    }
    SortedCovers(keys);
    SortedAscending(keys);
    SortedUnique(r, Sorted(keys));
  }
}
