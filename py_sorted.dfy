/**
 * `sorted(list(set(xs)))` on strings. Python's sorting algorithm is not
 * modelled: the result is characterised as the strictly increasing list
 * of the distinct elements, and SortedIsUnique shows that only one list
 * has that property, so any correct sort gives the same one.
 */
module PySorted {
  import opened PyStr

  predicate StrictlySorted(s: seq<string>)
  {
    forall i, j :: 0 <= i < j < |s| ==> Less(s[i], s[j])
  }

  /** A strictly increasing list has no duplicates. */
  lemma {:induction false} StrictlySortedDistinct(s: seq<string>)
    requires StrictlySorted(s)
    ensures forall i, j :: 0 <= i < j < |s| ==> s[i] != s[j]
  {
    forall i, j | 0 <= i < j < |s| ensures s[i] != s[j] {
      LessIrreflexive(s[i]);
    }
  }

  lemma {:induction false} TailElements(s: seq<string>)
    requires StrictlySorted(s) && s != []
    ensures forall e :: e in s[1..] <==> e in s && e != s[0]
  {
    StrictlySortedDistinct(s);
    forall e | e in s[1..] ensures e != s[0] {
      var k :| 0 <= k < |s[1..]| && s[1..][k] == e;
      assert s[k + 1] == e;
    }
    assert s == [s[0]] + s[1..];
  }

  /** Adds `x` to a strictly increasing list at its place, unless present. */
  function Insert(x: string, s: seq<string>): (r: seq<string>)
    requires StrictlySorted(s)
    ensures StrictlySorted(r)
    ensures forall e :: e in r <==> e == x || e in s
    decreases |s|
  {
    if s == [] then [x]
    else if x == s[0] then s
    else if Less(x, s[0]) then
      assert forall j :: 0 < j < |s| ==> Less(x, s[j]) by {
        forall j | 0 < j < |s| ensures Less(x, s[j]) {
          LessTransitive(x, s[0], s[j]);
        }
      }
      [x] + s
    else
      LessTotal(x, s[0]);
      var t := Insert(x, s[1..]);
      assert forall e :: e in t ==> Less(s[0], e) by {
        forall e | e in t ensures Less(s[0], e) {
          if e != x {
            var j :| 0 <= j < |s[1..]| && s[1..][j] == e;
            assert s[j + 1] == e;
          }
        }
      }
      assert s == [s[0]] + s[1..];
      [s[0]] + t
  }

  /** `sorted(set(xs))`: strictly increasing, with exactly the elements of `xs`. */
  function SortedSet(xs: seq<string>): (r: seq<string>)
    ensures StrictlySorted(r)
    ensures forall e :: e in r <==> e in xs
  {
    if xs == [] then []
    else
      var init := xs[..|xs| - 1];
      assert xs == init + [xs[|xs| - 1]];
      Insert(xs[|xs| - 1], SortedSet(init))
  }

  /** Two strictly increasing lists with the same elements are equal. */
  lemma {:induction false} SortedIsUnique(a: seq<string>, b: seq<string>)
    requires StrictlySorted(a) && StrictlySorted(b)
    requires forall e :: e in a <==> e in b
    ensures a == b
    decreases |a|
  {
    assert b != [] ==> b[0] in a;
    if a != [] {
      assert b != [] by { assert a[0] in b; }
      assert a[0] == b[0] by {
        assert a[0] in b && b[0] in a;
        var j :| 0 <= j < |b| && b[j] == a[0];
        var i :| 0 <= i < |a| && a[i] == b[0];
        if i > 0 && j > 0 {
          LessAsymmetric(a[0], b[0]);
        }
      }
      TailElements(a);
      TailElements(b);
      SortedIsUnique(a[1..], b[1..]);
      assert a == [a[0]] + a[1..] && b == [b[0]] + b[1..];
    }
  }
}
