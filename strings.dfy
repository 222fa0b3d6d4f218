/**
  String helpers the provider relies on: splitting on a one-character
  separator (the behaviour of Go's strings.Split for such a separator),
  joining, boolean parsing as Go's strconv.ParseBool does it, and the
  byte-wise ordering that sort.Strings uses.
*/
module Strings {
  import opened Wrappers

  /** Splits `s` around every occurrence of `sep`; never empty, like Go's strings.Split. */
  function Split(s: string, sep: char): (parts: seq<string>)
    ensures |parts| >= 1
  {
    if s == [] then [""]
    else
      var rest := Split(s[1..], sep);
      if s[0] == sep then [""] + rest
      else [[s[0]] + rest[0]] + rest[1..]
  }

  /** Concatenates `parts` with `sep` between neighbours. */
  function Join(parts: seq<string>, sep: char): (s: string)
    requires |parts| >= 1
    ensures |parts| == 1 ==> s == parts[0]
  {
    if |parts| == 1 then parts[0] else parts[0] + [sep] + Join(parts[1..], sep)
  }

  /** Two parts joined: the first, the separator, the second. */
  lemma JoinTwo(a: string, b: string, sep: char)
    ensures Join([a, b], sep) == a + [sep] + b
  {
    assert [a, b][1..] == [b];
  }

  /** Three parts joined, each pair apart by the separator. */
  lemma JoinThree(a: string, b: string, c: string, sep: char)
    ensures Join([a, b, c], sep) == a + [sep] + b + [sep] + c
  {
    assert [a, b, c][1..] == [b, c];
    JoinTwo(b, c, sep);
  }

  /** No part of a split holds the separator. */
  lemma {:induction false} SplitPartsFree(s: string, sep: char)
    ensures forall i :: 0 <= i < |Split(s, sep)| ==> sep !in Split(s, sep)[i]
  {
    if s != [] {
      SplitPartsFree(s[1..], sep);
    }
  }

  /** Splitting text that holds no separator gives the text back as the only part. */
  lemma {:induction false} SplitWithoutSeparator(s: string, sep: char)
    requires sep !in s
    ensures Split(s, sep) == [s]
  {
    if s != [] {
      SplitWithoutSeparator(s[1..], sep);
      assert s == [s[0]] + s[1..];
    }
  }

  /** Splitting `a + sep + b` with a separator-free `a` yields `a` followed by the parts of `b`. */
  lemma {:induction false} SplitAfterPrefix(a: string, sep: char, b: string)
    requires sep !in a
    ensures Split(a + [sep] + b, sep) == [a] + Split(b, sep)
  {
    if a == [] {
      assert a + [sep] + b == [sep] + b;
      assert ([sep] + b)[1..] == b;
    } else {
      SplitAfterPrefix(a[1..], sep, b);
      assert (a + [sep] + b)[1..] == a[1..] + [sep] + b;
      assert a == [a[0]] + a[1..];
    }
  }

  /** Joining the parts of a split gives the original text back. */
  lemma {:induction false} JoinSplit(s: string, sep: char)
    ensures Join(Split(s, sep), sep) == s
  {
    if s != [] {
      var rest := Split(s[1..], sep);
      JoinSplit(s[1..], sep);
      if s[0] == sep {
        assert Split(s, sep)[1..] == rest;
      } else if |rest| == 1 {
        assert s == [s[0]] + s[1..];
      } else {
        var parts := Split(s, sep);
        assert parts[1..] == rest[1..];
        assert Join(rest, sep) == rest[0] + [sep] + Join(rest[1..], sep);
        assert s == [s[0]] + s[1..];
      }
    }
  }

  /** Splitting a join of separator-free parts gives the parts back. */
  lemma {:induction false} SplitJoin(parts: seq<string>, sep: char)
    requires |parts| >= 1
    requires forall i :: 0 <= i < |parts| ==> sep !in parts[i]
    ensures Split(Join(parts, sep), sep) == parts
  {
    if |parts| == 1 {
      SplitWithoutSeparator(parts[0], sep);
    } else {
      SplitJoin(parts[1..], sep);
      SplitAfterPrefix(parts[0], sep, Join(parts[1..], sep));
      assert parts == [parts[0]] + parts[1..];
    }
  }

  /** Joining two runs of parts is joining each and putting a separator between. */
  lemma {:induction false} JoinConcat(a: seq<string>, b: seq<string>, sep: char)
    requires |a| >= 1 && |b| >= 1
    ensures Join(a + b, sep) == Join(a, sep) + [sep] + Join(b, sep)
  {
    if |a| == 1 {
      assert (a + b)[1..] == b;
    } else {
      JoinConcat(a[1..], b, sep);
      assert (a + b)[1..] == a[1..] + b;
    }
  }

  /** Go's strconv.ParseBool. */
  function ParseBool(s: string): (b: Option<bool>)
    ensures b == Some(true) <==> s in {"1", "t", "T", "TRUE", "true", "True"}
    ensures b == Some(false) <==> s in {"0", "f", "F", "FALSE", "false", "False"}
  {
    if s in {"1", "t", "T", "TRUE", "true", "True"} then Some(true)
    else if s in {"0", "f", "F", "FALSE", "false", "False"} then Some(false)
    else None
  }

  /** `a` sorts no later than `b` when strings are compared character by character. */
  predicate NotAfter(a: string, b: string)
    decreases |a|
  {
    if a == [] then true
    else if b == [] then false
    else if a[0] != b[0] then a[0] < b[0]
    else NotAfter(a[1..], b[1..])
  }

  lemma NotAfterReflexive(a: string)
    ensures NotAfter(a, a)
  {
  }

  lemma NotAfterTotal(a: string, b: string)
    ensures NotAfter(a, b) || NotAfter(b, a)
  {
  }

  lemma NotAfterAntisymmetric(a: string, b: string)
    requires NotAfter(a, b) && NotAfter(b, a)
    ensures a == b
  {
  }

  lemma NotAfterTransitive(a: string, b: string, c: string)
    requires NotAfter(a, b) && NotAfter(b, c)
    ensures NotAfter(a, c)
  {
  }

  /** Strictly ascending and therefore free of duplicates. */
  predicate Ascending(s: seq<string>)
  {
    forall i, j :: 0 <= i < j < |s| ==> NotAfter(s[i], s[j]) && s[i] != s[j]
  }

  /** Two ascending sequences holding the same strings are the same sequence. */
  lemma {:induction false} AscendingUnique(s: seq<string>, t: seq<string>)
    requires Ascending(s) && Ascending(t)
    requires forall y :: y in s <==> y in t
    ensures s == t
  {
    assert (s == []) == (t == []) by {
      assert s != [] ==> s[0] in s;
      assert t != [] ==> t[0] in t;
    }
    if s != [] {
      if s[0] != t[0] {
        assert s[0] in t && t[0] in s;
        var i :| 0 <= i < |t| && t[i] == s[0];
        var j :| 0 <= j < |s| && s[j] == t[0];
        NotAfterAntisymmetric(s[0], t[0]);
      }
      assert forall y :: y in s[1..] <==> y in t[1..] by {
        forall y ensures y in s[1..] <==> y in t[1..] {
          if y in s[1..] {
            var i :| 1 <= i < |s| && s[i] == y;
            assert y in s;
            var k :| 0 <= k < |t| && t[k] == y;
            assert k != 0;
            assert t[1..][k - 1] == y;
          }
          if y in t[1..] {
            var i :| 1 <= i < |t| && t[i] == y;
            assert y in t;
            var k :| 0 <= k < |s| && s[k] == y;
            assert k != 0;
            assert s[1..][k - 1] == y;
          }
        }
      }
      AscendingUnique(s[1..], t[1..]);
      assert s == [s[0]] + s[1..] && t == [t[0]] + t[1..];
    }
  }

  /** A non-empty finite set of strings has an element that sorts no later than all the others. */
  lemma {:induction false} LeastExists(s: set<string>)
    requires s != {}
    ensures exists m | m in s :: forall x | x in s :: NotAfter(m, x)
    decreases |s|
  {
    var e :| e in s;
    var rest := s - {e};
    if rest == {} {
      assert s == {e};
      NotAfterReflexive(e);
      assert forall x | x in s :: NotAfter(e, x);
    } else {
      LeastExists(rest);
      var m :| m in rest && forall x | x in rest :: NotAfter(m, x);
      NotAfterTotal(e, m);
      if NotAfter(e, m) {
        LeastBefore(s, e, m);
      } else {
        NotAfterReflexive(m);
        assert forall x | x in s :: NotAfter(m, x);
      }
    }
  }

  /** An element no later than the least of the others is the least of all. */
  lemma LeastBefore(s: set<string>, e: string, m: string)
    requires e in s && NotAfter(e, m)
    requires forall x | x in s - {e} :: NotAfter(m, x)
    ensures forall x | x in s :: NotAfter(e, x)
  {
    forall x | x in s ensures NotAfter(e, x) {
      if x == e { NotAfterReflexive(e); } else { NotAfterTransitive(e, m, x); }
    }
  }

  /** The element of `s` that sorts first. */
  function Least(s: set<string>): (m: string)
    requires s != {}
    ensures m in s && forall x | x in s :: NotAfter(m, x)
  {
    LeastExists(s);
    assert forall a, b | a in s && b in s && NotAfter(a, b) && NotAfter(b, a) :: a == b by {
      forall a, b | a in s && b in s && NotAfter(a, b) && NotAfter(b, a) ensures a == b {
        NotAfterAntisymmetric(a, b);
      }
    }
    var m :| m in s && forall x | x in s :: NotAfter(m, x);
    m
  }

  /** The elements of `s` in ascending order. */
  function Sorted(s: set<string>): (r: seq<string>)
    ensures Ascending(r)
    ensures forall x :: x in r <==> x in s
    decreases |s|
  {
    if s == {} then []
    else
      var m := Least(s);
      var t := Sorted(s - {m});
      var r := [m] + t;
      assert Ascending(r) by {
        forall i, j | 0 <= i < j < |r| ensures NotAfter(r[i], r[j]) && r[i] != r[j] {
          assert r[j] == t[j - 1] && r[j] in t;
          if i > 0 {
            assert r[i] == t[i - 1];
          }
        }
      }
      r
  }

  /** A single name sorts to itself. */
  lemma SortedSingle(a: string)
    ensures Sorted({a}) == [a]
  {
    AscendingUnique(Sorted({a}), [a]);
  }

  /** Two distinct names sort in `NotAfter` order. */
  lemma SortedPair(a: string, b: string)
    requires a != b
    ensures Sorted({a, b}) == if NotAfter(a, b) then [a, b] else [b, a]
  {
    NotAfterTotal(a, b);
    if NotAfter(a, b) {
      AscendingUnique(Sorted({a, b}), [a, b]);
    } else {
      AscendingUnique(Sorted({a, b}), [b, a]);
    }
  }
}
