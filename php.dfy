/** The few pieces of PHP semantics the client depends on: the truthiness of
    strings (`! $x`, `empty($x)`) and `rtrim`/`ltrim` with a one-character list. */
module Php {
  import opened Wrappers

  /** `(bool) $s` for a string: false exactly for "" and "0". `empty($s)`
      is its negation. */
  predicate Truthy(s: string)
  {
    s != "" && s != "0"
  }

  /** `(bool) $x` for a `?string`: `null` is falsy as well. */
  predicate TruthyOpt(x: Option<string>)
  {
    x.Some? && Truthy(x.value)
  }

  /** Every character of `s` is `c`. */
  predicate AllChar(s: string, c: char)
  {
    forall i :: 0 <= i < |s| ==> s[i] == c
  }

  /** `n` copies of the character `c`. */
  function Repeat(c: char, n: nat): (r: string)
    ensures |r| == n && AllChar(r, c)
  {
    if n == 0 then [] else [c] + Repeat(c, n - 1)
  }

  /** `rtrim($s, c)`: `s` without its trailing run of `c`. The result is a
      prefix of `s`, what was cut is made only of `c`, and the result does
      not end in `c`. */
  function RTrim(s: string, c: char): (r: string)
    ensures |r| <= |s| && r == s[..|r|]
    ensures AllChar(s[|r|..], c)
    ensures r == [] || r[|r| - 1] != c
    decreases |s|
  {
    if |s| > 0 && s[|s| - 1] == c then RTrim(s[..|s| - 1], c) else s
  }

  /** `ltrim($s, c)`: `s` without its leading run of `c`. The result is a
      suffix of `s`, what was cut is made only of `c`, and the result does
      not start with `c`. */
  function LTrim(s: string, c: char): (r: string)
    ensures |r| <= |s| && r == s[|s| - |r|..]
    ensures AllChar(s[..|s| - |r|], c)
    ensures r == [] || r[0] != c
    decreases |s|
  {
    if |s| > 0 && s[0] == c then LTrim(s[1..], c) else s
  }

  /** Trailing copies of `c` make no difference to `rtrim`. */
  lemma {:induction false} RTrimAbsorbs(s: string, c: char, n: nat)
    ensures RTrim(s + Repeat(c, n), c) == RTrim(s, c)
  {
    var t := s + Repeat(c, n);
    if n == 0 {
      assert t == s;
    } else {
      assert t[|t| - 1] == c;
      assert t[..|t| - 1] == s + Repeat(c, n - 1);
      RTrimAbsorbs(s, c, n - 1);
    }
  }

  /** Leading copies of `c` make no difference to `ltrim`. */
  lemma {:induction false} LTrimAbsorbs(s: string, c: char, n: nat)
    ensures LTrim(Repeat(c, n) + s, c) == LTrim(s, c)
  {
    var t := Repeat(c, n) + s;
    if n == 0 {
      assert t == s;
    } else {
      assert t[0] == c;
      assert t[1..] == Repeat(c, n - 1) + s;
      LTrimAbsorbs(s, c, n - 1);
    }
  }
}
