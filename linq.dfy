/** The one LINQ operator the discovery pipeline relies on, `Where`, as a
    function over sequences, with the facts about it that the rest of the
    model uses. */
module Linq {

  /** `Enumerable.Where`: the elements of `s` that satisfy `p`, in the order of `s`. */
  function Where<T>(s: seq<T>, p: T -> bool): seq<T>
  {
    if s == [] then [] else (if p(s[0]) then [s[0]] else []) + Where(s[1..], p)
  }

  /** `Where` keeps exactly the elements that satisfy `p`, and never grows. */
  lemma {:induction false} WhereMeans<T>(s: seq<T>, p: T -> bool)
    ensures |Where(s, p)| <= |s|
    ensures forall i :: 0 <= i < |Where(s, p)| ==> Where(s, p)[i] in s && p(Where(s, p)[i])
    ensures forall i :: 0 <= i < |s| && p(s[i]) ==> s[i] in Where(s, p)
  {
    if s != [] {
      WhereMeans(s[1..], p);
      var r := Where(s, p);
      var rest := Where(s[1..], p);
      assert r == (if p(s[0]) then [s[0]] else []) + rest;
      forall i | 0 <= i < |s| && p(s[i]) ensures s[i] in r {
        if i > 0 {
          assert s[i] == s[1..][i - 1];
        }
      }
    }
  }

  /** Filtering distributes over concatenation: `Where` never reorders. */
  lemma {:induction false} WhereAppend<T>(a: seq<T>, b: seq<T>, p: T -> bool)
    ensures Where(a + b, p) == Where(a, p) + Where(b, p)
  {
    if a == [] {
      assert a + b == b;
    } else {
      var ab := a + b;
      assert ab[0] == a[0] && ab[1..] == a[1..] + b;
      WhereAppend(a[1..], b, p);
      var head := if p(a[0]) then [a[0]] else [];
      calc {
        Where(ab, p);
        head + Where(a[1..] + b, p);
        head + (Where(a[1..], p) + Where(b, p));
        (head + Where(a[1..], p)) + Where(b, p);
      }
    }
  }

  /** Filtering one more element of a prefix, as a loop over `s` does. */
  lemma WhereSnoc<T>(s: seq<T>, i: nat, p: T -> bool)
    requires i < |s|
    ensures Where(s[..i + 1], p) == Where(s[..i], p) + (if p(s[i]) then [s[i]] else [])
  {
    assert s[..i + 1] == s[..i] + [s[i]];
    WhereAppend(s[..i], [s[i]], p);
    assert [s[i]][1..] == [];
  }

  /** A predicate false on every element filters everything out. */
  lemma {:induction false} WhereNone<T>(s: seq<T>, p: T -> bool)
    requires forall x :: x in s ==> !p(x)
    ensures Where(s, p) == []
  {
    if s != [] {
      assert s[0] in s;
      forall x | x in s[1..] ensures !p(x) {
        assert x in s;
      }
      WhereNone(s[1..], p);
    }
  }
}
