/** `Array.prototype.filter` and `Math.min(...xs)` over sequences. */
module Sequences {

  /** The elements of `s` that satisfy `p`, in their order in `s`. */
  function Filter<T>(s: seq<T>, p: T -> bool): (r: seq<T>)
    ensures |r| <= |s|
    ensures forall i :: 0 <= i < |r| ==> r[i] in s && p(r[i])
  {
    if s == [] then []
    else (if p(s[0]) then [s[0]] else []) + Filter(s[1..], p)
  }

  /** Every element of `s` that satisfies `p` is kept. */
  lemma {:induction false} FilterComplete<T>(s: seq<T>, p: T -> bool)
    ensures forall i :: 0 <= i < |s| && p(s[i]) ==> s[i] in Filter(s, p)
  {
    if s != [] {
      FilterComplete(s[1..], p);
      assert forall i :: 1 <= i < |s| ==> s[i] == s[1..][i - 1];
    }
  }

  /** The filter keeps the order of `s`: two kept elements appear in `s`
      in the order they appear in the result. */
  lemma {:induction false} FilterOrder<T>(s: seq<T>, p: T -> bool, i: nat, j: nat) returns (a: nat, b: nat)
    requires i < j < |Filter(s, p)|
    ensures a < b < |s| && s[a] == Filter(s, p)[i] && s[b] == Filter(s, p)[j]
    decreases |s|
  {
    assert s != [];
    var rest := Filter(s[1..], p);
    if p(s[0]) {
      assert Filter(s, p) == [s[0]] + rest;
      if i == 0 {
        assert rest[j - 1] in s[1..];
        var c :| 0 <= c < |s[1..]| && s[1..][c] == rest[j - 1];
        a, b := 0, c + 1;
      } else {
        var a', b' := FilterOrder(s[1..], p, i - 1, j - 1);
        a, b := a' + 1, b' + 1;
      }
    } else {
      assert Filter(s, p) == rest;
      var a', b' := FilterOrder(s[1..], p, i, j);
      a, b := a' + 1, b' + 1;
    }
  }

  /** The least element of a non-empty sequence. */
  function MinOf(s: seq<int>): (m: int)
    requires |s| > 0
    ensures m in s
    ensures forall x :: x in s ==> m <= x
  {
    if |s| == 1 then s[0]
    else
      var rest := MinOf(s[1..]);
      assert forall x :: x in s ==> x == s[0] || x in s[1..];
      if s[0] <= rest then s[0] else rest
  }
}
