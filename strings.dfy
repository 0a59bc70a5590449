/** The two string operations the runner's error handler relies on:
    `String.prototype.includes` and the rendering of a number inside a
    template literal. */
module Strings {

  /** `s.includes(sub)`: some window of `s` equals `sub` (the empty string
      is included in every string). */
  predicate Includes(s: string, sub: string)
    decreases |s|
  {
    sub <= s || (|s| > 0 && Includes(s[1..], sub))
  }

  /** `sub` starts at position `i` of `s`. */
  ghost predicate OccursAt(s: string, sub: string, i: int)
  {
    0 <= i && i + |sub| <= |s| && s[i..i + |sub|] == sub
  }

  /** The recursive search agrees with the positional definition, both ways. */
  lemma {:induction false} IncludesIffOccurs(s: string, sub: string)
    ensures Includes(s, sub) <==> exists i :: OccursAt(s, sub, i)
    decreases |s|
  {
    if sub <= s {
      assert OccursAt(s, sub, 0);
    } else if |s| == 0 {
    } else {
      IncludesIffOccurs(s[1..], sub);
      if Includes(s[1..], sub) {
        var i :| OccursAt(s[1..], sub, i);
        assert s[1..][i..i + |sub|] == s[i + 1..i + 1 + |sub|];
        assert OccursAt(s, sub, i + 1);
      }
      if j :| OccursAt(s, sub, j) {
        assert s[j..j + |sub|] == s[1..][j - 1..j - 1 + |sub|];
        assert OccursAt(s[1..], sub, j - 1);
      }
    }
  }

  /** Every string includes itself. */
  lemma IncludesSelf(s: string)
    ensures Includes(s, s)
  {
  }

  /** Text added after a string keeps what the string included. */
  lemma IncludesExtendRight(s: string, more: string, sub: string)
    requires Includes(s, sub)
    ensures Includes(s + more, sub)
  {
    IncludesIffOccurs(s, sub);
    var i :| OccursAt(s, sub, i);
    assert (s + more)[i..i + |sub|] == s[i..i + |sub|];
    assert OccursAt(s + more, sub, i);
    IncludesIffOccurs(s + more, sub);
  }

  /** Text added before a string keeps what the string included. */
  lemma IncludesExtendLeft(more: string, s: string, sub: string)
    requires Includes(s, sub)
    ensures Includes(more + s, sub)
  {
    IncludesIffOccurs(s, sub);
    var i :| OccursAt(s, sub, i);
    assert (more + s)[|more| + i..|more| + i + |sub|] == s[i..i + |sub|];
    assert OccursAt(more + s, sub, |more| + i);
    IncludesIffOccurs(more + s, sub);
  }

  /** The parts of a template literal, joined in order. */
  function Concat(parts: seq<string>): string
  {
    if parts == [] then "" else Concat(parts[..|parts| - 1]) + parts[|parts| - 1]
  }

  /** A joined template includes each of its parts. */
  lemma {:induction false} ConcatIncludesPart(parts: seq<string>, k: nat)
    requires k < |parts|
    ensures Includes(Concat(parts), parts[k])
    decreases |parts|
  {
    var init := parts[..|parts| - 1];
    if k == |parts| - 1 {
      IncludesSelf(parts[k]);
      IncludesExtendLeft(Concat(init), parts[k], parts[k]);
    } else {
      ConcatIncludesPart(init, k);
      IncludesExtendRight(Concat(init), parts[|parts| - 1], parts[k]);
    }
  }

  function DigitChar(d: nat): (c: char)
    requires d < 10
    ensures '0' <= c <= '9'
  {
    "0123456789"[d]
  }

  function DigitValue(c: char): nat
  {
    if '0' <= c <= '9' then (c - '0') as nat else 0
  }

  /** The value of a string of decimal digits, most significant first. */
  function DigitsValue(s: string): nat
  {
    if s == [] then 0 else DigitsValue(s[..|s| - 1]) * 10 + DigitValue(s[|s| - 1])
  }

  /** A decimal numeral as JavaScript prints one: digits only, with no
      leading zero unless the numeral is "0". */
  predicate Canonical(s: string)
  {
    |s| > 0 && (forall k :: 0 <= k < |s| ==> '0' <= s[k] <= '9') && (s[0] == '0' ==> s == "0")
  }

  /** The decimal digits of `n`, without leading zeros. */
  function NatToString(n: nat): (r: string)
    ensures Canonical(r)
    ensures DigitsValue(r) == n
  {
    if n < 10 then [DigitChar(n)]
    else
      var r := NatToString(n / 10) + [DigitChar(n % 10)];
      assert r[..|r| - 1] == NatToString(n / 10);
      r
  }

  /** How JavaScript renders an integer-valued number in a template literal:
      a minus sign for a negative number, then the canonical numeral of its
      magnitude. */
  function IntToString(n: int): (r: string)
    ensures n < 0 <==> (|r| > 0 && r[0] == '-')
    ensures n < 0 ==> Canonical(r[1..]) && DigitsValue(r[1..]) == -n
    ensures 0 <= n ==> Canonical(r) && DigitsValue(r) == n
  {
    if n < 0 then "-" + NatToString(-n) else NatToString(n)
  }
}
