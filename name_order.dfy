/** The ascending string order in which an ordered map of names is visited:
    character by character, with a proper prefix sorting first. */
module NameOrder {

  /** a sorts strictly before b. */
  predicate Less(a: string, b: string)
    decreases |a|
  {
    |b| > 0 && (|a| == 0 || a[0] < b[0] || (a[0] == b[0] && Less(a[1..], b[1..])))
  }

  /** The names of s are in strictly ascending order (hence also distinct). */
  predicate StrictlySorted(s: seq<string>)
  {
    forall i, j :: 0 <= i < j < |s| ==> Less(s[i], s[j])
  }

  /** The names held by a sequence. */
  function Elems(s: seq<string>): (names: set<string>)
  {
    set x | x in s
  }

  lemma {:induction false} LessIrreflexive(a: string)
    ensures !Less(a, a)
  {
    if |a| > 0 { LessIrreflexive(a[1..]); }
  }

  lemma {:induction false} LessTransitive(a: string, b: string, c: string)
    requires Less(a, b) && Less(b, c)
    ensures Less(a, c)
  {
    if |a| > 0 && a[0] == b[0] && b[0] == c[0] {
      LessTransitive(a[1..], b[1..], c[1..]);
    }
  }

  lemma {:induction false} LessTotal(a: string, b: string)
    requires a != b
    ensures Less(a, b) || Less(b, a)
  {
    if |a| > 0 && |b| > 0 && a[0] == b[0] {
      assert a == [a[0]] + a[1..] && b == [b[0]] + b[1..];
      LessTotal(a[1..], b[1..]);
    }
  }

  lemma {:induction false} LessAsymmetric(a: string, b: string)
    requires Less(a, b)
    ensures !Less(b, a)
  {
    if Less(b, a) {
      LessTransitive(a, b, a);
      LessIrreflexive(a);
    }
  }

  /** A shared prefix does not change the order of two names. */
  lemma {:induction false} LessCommonPrefix(p: string, a: string, b: string)
    requires Less(a, b)
    ensures Less(p + a, p + b)
    decreases |p|
  {
    if p != [] {
      LessCommonPrefix(p[1..], a, b);
      assert (p + a)[0] == p[0] == (p + b)[0];
      assert (p + a)[1..] == p[1..] + a && (p + b)[1..] == p[1..] + b;
    } else {
      assert p + a == a && p + b == b;
    }
  }

  /** Two strictly sorted sequences holding the same names are equal: the
      ascending enumeration of a set of names is unique. */
  lemma {:induction false} SortedUnique(s: seq<string>, t: seq<string>)
    requires StrictlySorted(s) && StrictlySorted(t)
    requires Elems(s) == Elems(t)
    ensures s == t
    decreases |s|
  {
    if s == [] {
      assert forall i | 0 <= i < |t| :: t[i] in Elems(t);
    } else {
      assert s[0] in Elems(s);
      assert t != [];
      assert t[0] in Elems(t);
      if s[0] != t[0] {
        var k :| 0 <= k < |t| && t[k] == s[0];
        var m :| 0 <= m < |s| && s[m] == t[0];
        assert k > 0 && m > 0;
        LessAsymmetric(s[0], s[m]);
        assert false;
      }
      HeadNotInTail(s);
      HeadNotInTail(t);
      assert Elems(s[1..]) == Elems(s) - {s[0]} by {
        assert s == [s[0]] + s[1..];
      }
      assert Elems(t[1..]) == Elems(t) - {t[0]} by {
        assert t == [t[0]] + t[1..];
      }
      SortedUnique(s[1..], t[1..]);
      assert s == [s[0]] + s[1..] && t == [t[0]] + t[1..];
    }
  }

  lemma HeadNotInTail(s: seq<string>)
    requires StrictlySorted(s) && s != []
    ensures s[0] !in s[1..]
  {
    if s[0] in s[1..] {
      var i :| 0 <= i < |s[1..]| && s[1..][i] == s[0];
      assert Less(s[0], s[i + 1]);
      LessIrreflexive(s[0]);
    }
  }

  /** The least name of a non-empty set. */
  method Least(names: set<string>) returns (m: string)
    requires names != {}
    ensures m in names
    ensures forall x :: x in names && x != m ==> Less(m, x)
  {
    m :| m in names;
    var rest := names - {m};
    while rest != {}
      invariant rest <= names && m in names && m !in rest
      invariant forall x :: x in names - rest && x != m ==> Less(m, x)
      decreases rest
    {
      var x :| x in rest;
      if Less(x, m) {
        forall y | y in names - rest && y != m ensures Less(x, y) {
          LessTransitive(x, m, y);
        }
        m := x;
      } else {
        LessTotal(x, m);
      }
      rest := rest - {x};
    }
  }
}
