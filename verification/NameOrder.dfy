/** The order of migration names, by code points. */
module NameOrder {

  type Name = string

  /** The comparison, character by character. */
  predicate AtMost(a: Name, b: Name) {
    a == "" || (b != "" && (a[0] < b[0] || (a[0] == b[0] && AtMost(a[1..], b[1..]))))
  }

  /** Up to their first difference two names agree; there the first one ends or is smaller. */
  ghost predicate DifferAt(a: Name, b: Name, k: nat) {
    k <= |a| && k < |b| && a[..k] == b[..k] && (k == |a| || a[k] < b[k])
  }

  ghost predicate Precedes(a: Name, b: Name) {
    exists k: nat :: DifferAt(a, b, k)
  }

  ghost predicate Ascending(names: seq<Name>) {
    forall i, j :: 0 <= i < j < |names| ==> Precedes(names[i], names[j])
  }

  lemma {:induction false} DifferLater(a: Name, b: Name, k: nat)
    requires a != "" && b != "" && a[0] == b[0]
    ensures DifferAt(a, b, k + 1) <==> DifferAt(a[1..], b[1..], k)
  {
    if k <= |a[1..]| && k <= |b[1..]| {
      assert a[..k + 1] == [a[0]] + a[1..][..k] && b[..k + 1] == [b[0]] + b[1..][..k];
      assert a[1..][..k] == a[..k + 1][1..] && b[1..][..k] == b[..k + 1][1..];
    }
  }

  lemma {:induction false} FirstDifference(a: Name, b: Name)
    ensures forall k: nat :: DifferAt(a, b, k) && k > 0 ==> a[0] == b[0]
  {
    forall k: nat | DifferAt(a, b, k) && k > 0
      ensures a[0] == b[0]
    {
      assert a[..k][0] == a[0] && b[..k][0] == b[0];
    }
  }

  lemma {:induction false} AtMostExactly(a: Name, b: Name)
    ensures AtMost(a, b) <==> a == b || Precedes(a, b)
    decreases |a|
  {
    if a == "" {
      assert b != "" ==> DifferAt(a, b, 0);
    } else if b == "" {
    } else if a[0] != b[0] {
      FirstDifference(a, b);
      assert a[0] < b[0] ==> DifferAt(a, b, 0);
    } else {
      AtMostExactly(a[1..], b[1..]);
      assert a == [a[0]] + a[1..] && b == [b[0]] + b[1..];
      if k: nat :| DifferAt(a[1..], b[1..], k) {
        DifferLater(a, b, k);
      }
      if k: nat :| DifferAt(a, b, k) {
        assert k > 0;
        DifferLater(a, b, k - 1);
      }
    }
  }

  lemma {:induction false} AtMostIsAntisymmetric(a: Name, b: Name)
    requires AtMost(a, b) && AtMost(b, a)
    ensures a == b
    decreases |a|
  {
    if a != "" {
      AtMostIsAntisymmetric(a[1..], b[1..]);
      assert a == [a[0]] + a[1..] && b == [b[0]] + b[1..];
    }
  }

  lemma {:induction false} AtMostIsTransitive(a: Name, b: Name, c: Name)
    requires AtMost(a, b) && AtMost(b, c)
    ensures AtMost(a, c)
    decreases |a|
  {
    if a != "" && a[0] == b[0] && b[0] == c[0] {
      AtMostIsTransitive(a[1..], b[1..], c[1..]);
    }
  }

  /** In an ascending list, the names up to one of them are those at its place or before. */
  lemma {:induction false} AscendingAtMost(names: seq<Name>, i: nat, b: nat)
    requires Ascending(names) && i < |names| && b < |names|
    ensures AtMost(names[i], names[b]) <==> i <= b
  {
    AtMostExactly(names[i], names[b]);
    if b < i {
      AtMostExactly(names[b], names[i]);
      if AtMost(names[i], names[b]) {
        AtMostIsAntisymmetric(names[i], names[b]);
      }
    }
  }
}
