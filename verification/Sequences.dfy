/** Facts about sequences that the solver is better told than left to find. */
module Sequences {
  lemma Associative<T>(x: seq<T>, y: seq<T>, z: seq<T>)
    ensures (x + y) + z == x + (y + z)
  {
  }

  lemma PrefixShift<T>(x: seq<T>, y: seq<T>, b: seq<T>)
    requires x <= b
    requires y <= b[|x|..]
    ensures x + y <= b
    ensures x + y == b <==> y == b[|x|..]
  {
    assert b == x + b[|x|..];
    if x + y == b {
      assert y == (x + y)[|x|..];
    }
  }

  lemma PrefixPastEnd<T>(x: seq<T>, y: seq<T>, n: nat)
    requires |x| <= n <= |x| + |y|
    ensures (x + y)[..n] == x + y[..n - |x|]
  {
  }
}
