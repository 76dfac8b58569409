/** String helpers shared by the messages and the queries. */
module Text {

  function Digit(d: nat): char
    requires d < 10
  {
    "0123456789"[d]
  }

  /** Decimal digits of n, as a template literal renders a number. */
  function NatToString(n: nat): (s: string)
    ensures |s| > 0
    decreases n
  {
    if n < 10 then [Digit(n)] else NatToString(n / 10) + [Digit(n % 10)]
  }

  function IntToString(i: int): (s: string)
    ensures |s| > 0
  {
    if i < 0 then "-" + NatToString(-i) else NatToString(i)
  }

  /** `sub` occurs in `s` starting at position i. */
  predicate OccursAt(s: string, sub: string, i: int)
  {
    0 <= i && i + |sub| <= |s| && s[i..i + |sub|] == sub
  }

  /** `sub` occurs somewhere in `s`. */
  predicate Contains(s: string, sub: string)
  {
    exists i :: 0 <= i <= |s| && OccursAt(s, sub, i)
  }

  /** Array.prototype.join */
  function Join(xs: seq<string>, sep: string): string
  {
    if |xs| == 0 then ""
    else if |xs| == 1 then xs[0]
    else xs[0] + sep + Join(xs[1..], sep)
  }

  /** An occurrence in the tail of a concatenation is an occurrence in the whole. */
  lemma OccursAfter(a: string, b: string, sub: string, i: int)
    requires OccursAt(b, sub, i)
    ensures OccursAt(a + b, sub, |a| + i)
  {
    assert (a + b)[|a| + i..|a| + i + |sub|] == b[i..i + |sub|];
  }

  /** Every element of the list appears in the joined string. */
  lemma {:induction false} JoinContains(xs: seq<string>, sep: string, k: int)
    requires 0 <= k < |xs|
    ensures Contains(Join(xs, sep), xs[k])
  {
    if |xs| == 1 || k == 0 {
      var s := Join(xs, sep);
      if |xs| > 1 {
        assert s == xs[0] + (sep + Join(xs[1..], sep));
        assert s[0..|xs[0]|] == xs[0];
      }
      assert OccursAt(s, xs[0], 0);
    } else {
      JoinContains(xs[1..], sep, k - 1);
      var i :| 0 <= i <= |Join(xs[1..], sep)| && OccursAt(Join(xs[1..], sep), xs[k], i);
      OccursAfter(xs[0] + sep, Join(xs[1..], sep), xs[k], i);
      assert Join(xs, sep) == (xs[0] + sep) + Join(xs[1..], sep);
    }
  }
}
