/** Sorted, duplicate-free listings of names: what `sorted(names)` returns for a Python set of strings. */
module Listing {

  /** Strict order on strings, code point by code point. */
  predicate Before(a: string, b: string)
  {
    if b == "" then false
    else if a == "" then true
    else a[0] < b[0] || (a[0] == b[0] && Before(a[1..], b[1..]))
  }

  lemma {:induction false} BeforeIsTransitive(a: string, b: string, c: string)
    requires Before(a, b) && Before(b, c)
    ensures Before(a, c)
    decreases |a|
  {
    if a != "" && a[0] == b[0] && b[0] == c[0] {
      BeforeIsTransitive(a[1..], b[1..], c[1..]);
    }
  }

  lemma {:induction false} BeforeIsTotal(a: string, b: string)
    ensures Before(a, b) || Before(b, a) || a == b
    ensures !(Before(a, b) && Before(b, a))
    ensures Before(a, b) ==> a != b
    decreases |a|
  {
    if a != "" && b != "" {
      BeforeIsTotal(a[1..], b[1..]);
      if a[0] == b[0] && a[1..] == b[1..] {
        assert a == [a[0]] + a[1..] && b == [b[0]] + b[1..];
      }
    }
  }

  /** The order of texts: at the first difference the smaller character comes first, and a beginning before the whole. */
  lemma {:induction false} BeforeExactly(a: string, b: string)
    ensures Before(a, b) <==>
              || (a <= b && a != b)
              || (exists i :: 0 <= i < |a| && i < |b| && a[..i] == b[..i] && a[i] < b[i])
    decreases |a|
  {
    if a != "" && b != "" && a[0] == b[0] {
      BeforeExactly(a[1..], b[1..]);
      assert a == [a[0]] + a[1..] && b == [b[0]] + b[1..];
      if i :| 0 <= i < |a[1..]| && i < |b[1..]| && a[1..][..i] == b[1..][..i] && a[1..][i] < b[1..][i] {
        assert a[..i + 1] == [a[0]] + a[1..][..i] && b[..i + 1] == [b[0]] + b[1..][..i];
        assert a[i + 1] < b[i + 1];
      }
      if i :| 0 <= i < |a| && i < |b| && a[..i] == b[..i] && a[i] < b[i] {
        assert i > 0;
        assert a[1..][..i - 1] == a[..i][1..] && b[1..][..i - 1] == b[..i][1..];
        assert a[1..][i - 1] < b[1..][i - 1];
      }
    } else if a != "" && b != "" && a[0] < b[0] {
      assert a[..0] == b[..0];
    }
  }

  function Elements(s: seq<string>): set<string>
  {
    set x | x in s
  }

  lemma ElementsOfConcat(a: seq<string>, b: seq<string>)
    ensures Elements(a + b) == Elements(a) + Elements(b)
  {
  }

  ghost predicate Ascending(s: seq<string>)
  {
    forall i, j :: 0 <= i < j < |s| ==> Before(s[i], s[j])
  }

  ghost predicate IsLeast(m: string, s: set<string>)
  {
    m in s && forall x :: x in s ==> x == m || Before(m, x)
  }

  lemma {:induction false} LeastExists(s: set<string>) returns (m: string)
    requires s != {}
    ensures IsLeast(m, s)
    decreases |s|
  {
    m :| m in s;
    var rest := s - {m};
    if rest != {} {
      var l := LeastExists(rest);
      BeforeIsTotal(l, m);
      if Before(l, m) {
        forall x | x in s ensures x == l || Before(l, x) { }
        m := l;
      } else {
        forall x | x in s ensures x == m || Before(m, x) {
          if x != m && x != l { BeforeIsTransitive(m, l, x); }
        }
      }
    }
  }

  /** The one ascending listing of a set of names. */
  ghost function Sorted(s: set<string>): (r: seq<string>)
    ensures Ascending(r) && Elements(r) == s && |r| == |s|
  {
    if s == {} then []
    else
      assert exists m :: IsLeast(m, s) by { var m := LeastExists(s); }
      var m :| IsLeast(m, s);
      var rest := Sorted(s - {m});
      assert s == {m} + (s - {m});
      PrependAscends(m, rest);
      [m] + rest
  }

  lemma PrependAscends(m: string, s: seq<string>)
    requires Ascending(s)
    requires forall x :: x in Elements(s) ==> Before(m, x)
    ensures Ascending([m] + s) && Elements([m] + s) == {m} + Elements(s)
  {
    assert forall i :: 0 <= i < |s| ==> s[i] in Elements(s);
  }

  /** Two ascending listings with the same names are the same list. */
  lemma {:induction false} AscendingIsUnique(a: seq<string>, b: seq<string>)
    requires Ascending(a) && Ascending(b) && Elements(a) == Elements(b)
    ensures a == b
    decreases |a|
  {
    if a == [] {
      assert forall i :: 0 <= i < |b| ==> b[i] in Elements(b);
    } else {
      assert a[0] in Elements(a);
      assert b != [];
      assert b[0] in Elements(b);
      var i :| 0 <= i < |b| && b[i] == a[0];
      var j :| 0 <= j < |a| && a[j] == b[0];
      BeforeIsTotal(a[0], b[0]);
      assert a[0] == b[0];
      forall x ensures x in Elements(a[1..]) <==> x in Elements(b[1..]) {
        TailElements(a, x);
        TailElements(b, x);
      }
      AscendingIsUnique(a[1..], b[1..]);
      assert a == [a[0]] + a[1..] && b == [b[0]] + b[1..];
    }
  }

  lemma TailElements(a: seq<string>, x: string)
    requires Ascending(a) && a != []
    ensures x in Elements(a[1..]) <==> x in Elements(a) && x != a[0]
  {
    if x in a {
      var i :| 0 <= i < |a| && a[i] == x;
      if i > 0 {
        BeforeIsTotal(a[0], a[i]);
        assert a[1..][i - 1] == x;
      } else if x in a[1..] {
        var j :| 0 <= j < |a[1..]| && a[1..][j] == x;
        BeforeIsTotal(a[0], a[j + 1]);
      }
    }
  }

  lemma AppendAscends(s: seq<string>, m: string)
    requires Ascending(s)
    requires forall x :: x in Elements(s) ==> Before(x, m)
    ensures Ascending(s + [m]) && Elements(s + [m]) == Elements(s) + {m}
  {
    forall i, j | 0 <= i < j < |s + [m]| ensures Before((s + [m])[i], (s + [m])[j]) {
      assert s[i] in Elements(s);
    }
  }

  /** Everything listed comes before everything that is left. */
  ghost predicate AllBefore(done: set<string>, rest: set<string>)
  {
    forall x, y :: x in done && y in rest ==> Before(x, y)
  }

  /** `sorted(names)`: repeatedly take the least name that remains. */
  method SortNames(names: set<string>) returns (out: seq<string>)
    ensures out == Sorted(names)
  {
    out := [];
    var rest := names;
    while rest != {}
      invariant rest <= names && Elements(out) == names - rest
      invariant Ascending(out) && AllBefore(Elements(out), rest)
      decreases |rest|
    {
      assert exists m :: IsLeast(m, rest) by { var l := LeastExists(rest); }
      var m :| m in rest && forall x :: x in rest ==> x == m || Before(m, x);
      AppendAscends(out, m);
      rest := rest - {m};
      out := out + [m];
    }
    AscendingIsUnique(out, Sorted(names));
  }

  // ---- Walking over a set ----

  /** One more element of a set is dealt with. */
  lemma MovedOver(done: set<string>, rest: set<string>, n: string)
    requires done !! rest && n in rest
    ensures done + {n} !! rest - {n} && done + {n} + (rest - {n}) == done + rest
    ensures |done + {n}| == |done| + 1 && |rest - {n}| < |rest|
  {
  }
}
