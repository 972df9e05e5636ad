/**
 * The ascending key order in which the storage engine's range scans
 * (`range(.., Order::Ascending)`) return string keys: lexicographic,
 * a proper prefix first. Comparing Unicode scalar values one by one gives the
 * same order as comparing their UTF-8 bytes, which is what the store does.
 */
module KeyOrder {

  /** `a` comes strictly before `b`. */
  predicate Below(a: string, b: string)
    decreases |a|
  {
    |b| > 0 && (|a| == 0 || a[0] < b[0] || (a[0] == b[0] && Below(a[1..], b[1..])))
  }

  lemma {:induction false} BelowIrreflexive(a: string)
    ensures !Below(a, a)
    decreases |a|
  {
    if |a| > 0 {
      BelowIrreflexive(a[1..]);
    }
  }

  lemma {:induction false} BelowAsymmetric(a: string, b: string)
    requires Below(a, b)
    ensures !Below(b, a)
    decreases |a|
  {
    if |a| > 0 && a[0] == b[0] {
      BelowAsymmetric(a[1..], b[1..]);
    }
  }

  lemma {:induction false} BelowTransitive(a: string, b: string, c: string)
    requires Below(a, b) && Below(b, c)
    ensures Below(a, c)
    decreases |a|
  {
    if |a| > 0 && a[0] == b[0] && b[0] == c[0] {
      BelowTransitive(a[1..], b[1..], c[1..]);
    }
  }

  /** Any two distinct keys are ordered one way or the other. */
  lemma {:induction false} BelowTotal(a: string, b: string)
    requires a != b
    ensures Below(a, b) || Below(b, a)
    decreases |a|
  {
    if |a| > 0 && |b| > 0 && a[0] == b[0] {
      assert a == [a[0]] + a[1..] && b == [b[0]] + b[1..];
      BelowTotal(a[1..], b[1..]);
    }
  }

  /** `m` comes before every other key of `s`. */
  predicate IsLeast(m: string, s: set<string>)
  {
    m in s && forall x :: x in s ==> x == m || Below(m, x)
  }

  lemma {:induction false} LeastExists(s: set<string>)
    requires s != {}
    ensures exists m :: IsLeast(m, s)
    decreases s
  {
    var y :| y in s;
    var rest := s - {y};
    if rest == {} {
      assert s == {y};
      assert IsLeast(y, s);
    } else {
      LeastExists(rest);
      var m :| IsLeast(m, rest);
      if Below(m, y) {
        assert IsLeast(m, s);
      } else {
        BelowTotal(m, y);
        forall x | x in s
          ensures x == y || Below(y, x)
        {
          if x != y && x != m {
            BelowTransitive(y, m, x);
          }
        }
        assert IsLeast(y, s);
      }
    }
  }

  /** A set has at most one least key. */
  lemma LeastUnique(s: set<string>)
    ensures forall m, n :: IsLeast(m, s) && IsLeast(n, s) ==> m == n
  {
    forall m, n | IsLeast(m, s) && IsLeast(n, s)
      ensures m == n
    {
      if m != n {
        BelowAsymmetric(m, n);
      }
    }
  }

  predicate Ascending(keys: seq<string>)
  {
    forall i, j :: 0 <= i < j < |keys| ==> Below(keys[i], keys[j])
  }

  /** The keys of `s` in the order a range scan yields them. */
  function SortedKeys(s: set<string>): (keys: seq<string>)
    ensures Ascending(keys)
    ensures forall x :: x in s <==> x in keys
    ensures |keys| == |s|
    decreases s
  {
    if s == {} then []
    else
      LeastExists(s);
      LeastUnique(s);
      var m :| IsLeast(m, s);
      [m] + SortedKeys(s - {m})
  }
}
