/** Small types and sequence facts shared by every other module. */
module Prelude {

  datatype Option<+T> = None | Some(value: T)

  function Min(a: int, b: int): (m: int) {
    if a < b then a else b
  }

  function Pow2(n: nat): (p: nat)
    ensures p >= 1
  {
    if n == 0 then 1 else 2 * Pow2(n - 1)
  }

  /** Strictly increasing: the order in which Redis lists stream ids. */
  ghost predicate Ascending(s: seq<nat>) {
    forall i, j :: 0 <= i < j < |s| ==> s[i] < s[j]
  }

  /** `s` without any occurrence of `x`, order kept. */
  function Without(s: seq<nat>, x: nat): (r: seq<nat>)
    ensures forall y :: y in r <==> y in s && y != x
    ensures Ascending(s) ==> Ascending(r)
    ensures |r| <= |s|
  {
    if s == [] then []
    else
      var rest := Without(s[1..], x);
      assert s == [s[0]] + s[1..];
      assert Ascending(s) ==> forall i :: 0 <= i < |rest| ==> rest[i] in s[1..];
      if s[0] == x then rest else [s[0]] + rest
  }

  /** In an ascending list, removing the head leaves exactly the tail. */
  lemma {:induction false} WithoutHead(s: seq<nat>, x: nat)
    requires Ascending([x] + s)
    ensures Without([x] + s, x) == s
  {
    assert ([x] + s)[1..] == s;
    assert forall y :: y in s ==> y != x by {
      forall y | y in s ensures y != x {
        var i :| 0 <= i < |s| && s[i] == y;
        assert ([x] + s)[0] < ([x] + s)[i + 1];
      }
    }
    WithoutAbsent(s, x);
  }

  lemma {:induction false} WithoutAbsent(s: seq<nat>, x: nat)
    requires x !in s
    ensures Without(s, x) == s
  {
    if s != [] {
      assert s == [s[0]] + s[1..];
      WithoutAbsent(s[1..], x);
    }
  }

  lemma {:induction false} WithoutCommutes(s: seq<nat>, x: nat, y: nat)
    ensures Without(Without(s, x), y) == Without(Without(s, y), x)
  {
    if s != [] {
      WithoutCommutes(s[1..], x, y);
      assert forall a: nat, t: seq<nat> :: ([a] + t)[0] == a && ([a] + t)[1..] == t;
    }
  }

  /** `x` occurs once in an ascending list. */
  lemma {:induction false} WithoutLength(s: seq<nat>, x: nat)
    requires Ascending(s) && x in s
    ensures |Without(s, x)| == |s| - 1
  {
    if s[0] == x {
      assert s == [x] + s[1..];
      WithoutHead(s[1..], x);
    } else {
      assert s == [s[0]] + s[1..];
      WithoutLength(s[1..], x);
    }
  }
}
