/** Small shared vocabulary: nullable values, numeric helpers and sums. */
module Base {

  /** A JavaScript value that may be `null`/`undefined` (None) or present (Some). */
  datatype Option<+T> = None | Some(value: T) {
    function GetOr(default: T): T {
      match this
      case Some(v) => v
      case None => default
    }
  }

  function MinInt(a: int, b: int): int { if a <= b then a else b }

  function MaxInt(a: int, b: int): int { if a >= b then a else b }

  function MinReal(a: real, b: real): real { if a <= b then a else b }

  /** Sum of a sequence of integers, left to right (the source's `reduce((s, x) => s + x, 0)`). */
  function Sum(s: seq<int>): int
  {
    if s == [] then 0 else Sum(s[..|s| - 1]) + s[|s| - 1]
  }

  lemma {:induction false} SumAppend(a: seq<int>, b: seq<int>)
    ensures Sum(a + b) == Sum(a) + Sum(b)
    decreases |b|
  {
    if b == [] {
      assert a + b == a;
    } else {
      var b' := b[..|b| - 1];
      assert (a + b)[..|a + b| - 1] == a + b';
      SumAppend(a, b');
    }
  }

  lemma {:induction false} SumNonNegative(s: seq<int>)
    requires forall i :: 0 <= i < |s| ==> s[i] >= 0
    ensures Sum(s) >= 0
    decreases |s|
  {
    if s != [] {
      SumNonNegative(s[..|s| - 1]);
    }
  }

  /** The first n elements, or all of them when there are fewer (JavaScript `slice(0, n)`). */
  function Take<T>(s: seq<T>, n: nat): (r: seq<T>)
    ensures |r| == MinInt(|s|, n)
    ensures r == s[..|r|]
  {
    if |s| <= n then s else s[..n]
  }

  /** The last n elements, or all of them when there are fewer (JavaScript `slice(-n)`). */
  function TakeLast<T>(s: seq<T>, n: nat): (r: seq<T>)
    ensures |r| == MinInt(|s|, n)
    ensures r == s[|s| - |r|..]
  {
    if |s| <= n then s else s[|s| - n..]
  }

  /** Keeping the last n of `s + t`, when `t` fits, keeps all of `t` after the most recent
      elements of `s`. */
  lemma TakeLastAppend<T>(s: seq<T>, t: seq<T>, n: nat)
    requires |t| <= n
    ensures var r := TakeLast(s + t, n);
      |t| <= |r| && r[|r| - |t|..] == t && r[..|r| - |t|] == s[|s| - (|r| - |t|)..]
  {
    var all := s + t;
    var r := TakeLast(all, n);
    assert r[|r| - |t|..] == all[|all| - |t|..] == t;
    assert r[..|r| - |t|] == all[|all| - |r|..|all| - |t|] == s[|s| - (|r| - |t|)..];
  }
}
