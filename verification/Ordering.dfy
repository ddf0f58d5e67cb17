// Sorted lists of strings, and least numbers.
module Ordering {
  method Minimum(s: set<nat>) returns (least: nat)
    requires s != {}
    ensures least in s && forall other :: other in s ==> least <= other
  {
    least :| least in s;
    var rest := s - {least};
    while rest != {}
      invariant rest <= s && least in s
      invariant forall other :: other in s ==> other in rest || least <= other
      decreases rest
    {
      var x :| x in rest;
      if x < least {
        least := x;
      }
      rest := rest - {x};
    }
  }

  // A total order on strings, as sorting uses it.
  predicate Before(a: string, b: string) {
    b != [] && (a == [] || a[0] < b[0] || (a[0] == b[0] && Before(a[1..], b[1..])))
  }

  lemma {:induction false} BeforeIsTotal(a: string, b: string)
    ensures a == b || Before(a, b) || Before(b, a)
  {
    if a != [] && b != [] && a[0] == b[0] {
      BeforeIsTotal(a[1..], b[1..]);
      assert a[1..] == b[1..] ==> a == [a[0]] + a[1..] == b;
    }
  }

  lemma {:induction false} BeforeIsTransitive(a: string, b: string, c: string)
    requires Before(a, b) && Before(b, c)
    ensures Before(a, c)
  {
    if a != [] && a[0] == b[0] == c[0] {
      BeforeIsTransitive(a[1..], b[1..], c[1..]);
    }
  }

  // The lexicographic order: the first difference decides, and a prefix comes first.
  lemma {:induction false} BeforeIsLexicographic(a: string, b: string)
    ensures Before(a, b) <==>
              a < b || exists k :: 0 <= k < |a| && k < |b| && a[..k] == b[..k] && a[k] < b[k]
  {
    if a != [] && b != [] && a[0] == b[0] {
      BeforeIsLexicographic(a[1..], b[1..]);
      assert a == [a[0]] + a[1..] && b == [b[0]] + b[1..];
      if k :| 0 <= k < |a| - 1 && k < |b| - 1 && a[1..][..k] == b[1..][..k] && a[1..][k] < b[1..][k] {
        assert a[..k + 1] == [a[0]] + a[1..][..k] && b[..k + 1] == [b[0]] + b[1..][..k];
        assert a[k + 1] < b[k + 1];
      }
      if k :| 0 <= k < |a| && k < |b| && a[..k] == b[..k] && a[k] < b[k] {
        assert k > 0 && a[1..][..k - 1] == a[..k][1..] && b[1..][..k - 1] == b[..k][1..];
        assert a[1..][k - 1] < b[1..][k - 1];
      }
    } else if a != [] && b != [] && a[0] < b[0] {
      assert a[..0] == b[..0];
    }
  }

  predicate Ascending(names: seq<string>) {
    forall i, j :: 0 <= i < j < |names| ==> Before(names[i], names[j])
  }

  method Insert(sorted: seq<string>, name: string) returns (r: seq<string>)
    requires Ascending(sorted) && name !in sorted
    ensures Ascending(r) && forall n :: n in r <==> n in sorted || n == name
  {
    var k := 0;
    while k < |sorted| && Before(sorted[k], name)
      invariant k <= |sorted| && forall i :: 0 <= i < k ==> Before(sorted[i], name)
    {
      k := k + 1;
    }
    forall j | k <= j < |sorted| ensures Before(name, sorted[j]) {
      BeforeIsTotal(name, sorted[k]);
      if j > k {
        BeforeIsTransitive(name, sorted[k], sorted[j]);
      }
    }
    r := sorted[..k] + [name] + sorted[k..];
    assert forall n :: n in sorted <==> n in sorted[..k] || n in sorted[k..];
  }

  method SortedKeys(keys: set<string>) returns (out: seq<string>)
    ensures Ascending(out) && forall c :: c in out <==> c in keys
  {
    out := [];
    var remaining := keys;
    while remaining != {}
      invariant remaining <= keys && Ascending(out)
      invariant forall c :: c in out <==> c in keys && c !in remaining
    {
      var k :| k in remaining;
      out := Insert(out, k);
      remaining := remaining - {k};
    }
  }
}
