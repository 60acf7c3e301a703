/** Small vocabulary shared by every module: optional values, saturating
    arithmetic, and the real-number helpers that stand for f32/f64 methods. */
module Numerics {

  datatype Option<+T> = None | Some(value: T)

  function Min(a: real, b: real): real { if a <= b then a else b }

  function Max(a: real, b: real): real { if a >= b then a else b }

  function Abs(a: real): real { if a < 0.0 then -a else a }

  function Clamp(a: real, lo: real, hi: real): real { Max(lo, Min(a, hi)) }

  /** `u64::saturating_sub`. */
  function SatSub(a: nat, b: nat): nat { if a >= b then a - b else 0 }

  /** ASCII lower-casing of one character, as `to_ascii_lowercase` does. */
  function LowerChar(c: char): char
  {
    if 'A' <= c <= 'Z' then (c as int + 32) as char else c
  }

  function ToLower(s: string): string
  {
    seq(|s|, i requires 0 <= i < |s| => LowerChar(s[i]))
  }

  /** Upper-case letters and nothing else are folded: `s` lowers to a word of
      lower-case letters exactly when it spells that word in any letter case. */
  lemma LowersExactly(s: string, word: string)
    requires forall i | 0 <= i < |word| :: 'a' <= word[i] <= 'z'
    ensures ToLower(s) == word <==>
            |s| == |word| && forall i | 0 <= i < |s| :: s[i] == word[i] || s[i] as int == word[i] as int - 32
  {
    if |s| == |word| {
      if forall i | 0 <= i < |s| :: s[i] == word[i] || s[i] as int == word[i] as int - 32 {
        assert forall i | 0 <= i < |s| :: LowerChar(s[i]) == word[i];
      }
      if ToLower(s) == word {
        forall i | 0 <= i < |s| ensures s[i] == word[i] || s[i] as int == word[i] as int - 32 {
          assert ToLower(s)[i] == word[i];
        }
      }
    }
  }

  /** The one division step every proof about ratios needs. */
  lemma DivMul(a: real, b: real)
    requires b != 0.0
    ensures a / b * b == a
  {
  }

  /** Fractions with positive denominators compare as their cross products. */
  lemma CrossDivide(a: real, b: real, c: real, d: real)
    requires b > 0.0 && d > 0.0
    ensures a / b <= c / d <==> a * d <= c * b
  {
    var x, y := a / b, c / d;
    DivMul(a, b);
    DivMul(c, d);
    assert a * d == x * (b * d);
    assert c * b == y * (b * d);
    if x <= y {
      MulMono(x, y, b * d);
    } else {
      MulMono(y, x, b * d);
      assert (x - y) * (b * d) > 0.0;
    }
  }

  lemma MulMono(x: real, y: real, k: real)
    requires x <= y && k >= 0.0
    ensures x * k <= y * k
  {
    assert (y - x) * k >= 0.0;
  }

  /** A named product, so that proofs can carry it without opening it. */
  function Times(a: real, b: real): real { a * b }

  lemma TimesMono(x: real, y: real, k: real)
    requires x <= y && k >= 0.0
    ensures Times(x, k) <= Times(y, k)
  {
    MulMono(x, y, k);
  }

  lemma TimesCommutes(x: real, y: real)
    ensures Times(x, y) == Times(y, x)
  {
  }

  /** A quotient against a bound, without the division. */
  lemma QuotientAgainst(a: real, b: real, least: real)
    requires b > 0.0
    ensures a / b >= least <==> a >= least * b
    ensures a / b > least <==> a > least * b
  {
    DivMul(a, b);
    SignOfProduct(b, a / b - least);
    assert b * (a / b - least) == a - least * b;
  }

  lemma DivSub(a: real, b: real, q: real)
    requires q != 0.0
    ensures (a - b) / q == a / q - b / q
  {
    DivMul(a, q);
    DivMul(b, q);
    DivMul(a - b, q);
    assert ((a - b) / q - (a / q - b / q)) * q == 0.0;
  }

  lemma DivMono(a: real, b: real, q: real)
    requires q > 0.0 && a <= b
    ensures a / q <= b / q
  {
    DivSub(b, a, q);
    assert (b - a) / q >= 0.0;
  }

  lemma SignOfProduct(p: real, x: real)
    requires p > 0.0
    ensures x > 0.0 <==> p * x > 0.0
    ensures x < 0.0 <==> p * x < 0.0
  {
  }

  /** Sum of `f` over the first `n` elements, by default over all of them. */
  function Total<T>(s: seq<T>, f: T -> real, n: nat := |s|): real
    requires n <= |s|
    decreases n
  {
    if n == 0 then 0.0 else Total(s, f, n - 1) + f(s[n - 1])
  }

  lemma {:induction false} TotalPrefix<T>(s: seq<T>, t: seq<T>, f: T -> real, n: nat)
    requires n <= |s| && n <= |t| && forall i | 0 <= i < n :: s[i] == t[i]
    ensures Total(s, f, n) == Total(t, f, n)
  {
    if n > 0 {
      TotalPrefix(s, t, f, n - 1);
    }
  }

  lemma TotalAppend<T>(s: seq<T>, x: T, f: T -> real)
    ensures Total(s + [x], f) == Total(s, f) + f(x)
  {
    TotalPrefix(s + [x], s, f, |s|);
  }
}
