/** The few pieces of Go's `strings` and `strconv` packages the exporter relies on. */
module Text {

  /** `strings.Contains(s, sub)`. */
  predicate Contains(s: string, sub: string)
    decreases |s|
  {
    sub <= s || (|s| > 0 && Contains(s[1..], sub))
  }

  /** `sub` occurs in `s` at index `i`. */
  predicate OccursAt(s: string, sub: string, i: nat)
  {
    i + |sub| <= |s| && s[i..i + |sub|] == sub
  }

  /** `Contains` finds an occurrence of `sub` whenever it holds. */
  lemma {:induction false} ContainsOccurs(s: string, sub: string) returns (i: nat)
    requires Contains(s, sub)
    ensures OccursAt(s, sub, i)
    decreases |s|
  {
    if sub <= s {
      i := 0;
    } else {
      var j := ContainsOccurs(s[1..], sub);
      assert s[j + 1..j + 1 + |sub|] == s[1..][j..j + |sub|];
      i := j + 1;
    }
  }

  /** Every occurrence of `sub` makes `Contains` hold. */
  lemma {:induction false} OccursContains(s: string, sub: string, i: nat)
    requires OccursAt(s, sub, i)
    ensures Contains(s, sub)
    decreases i
  {
    if i == 0 {
      assert s[..|sub|] == sub;
    } else {
      assert s[1..][i - 1..i - 1 + |sub|] == s[i..i + |sub|];
      OccursContains(s[1..], sub, i - 1);
    }
  }

  /** `Contains` agrees with the plain definition: `sub` occurs at some index of `s`. */
  lemma ContainsIffOccurs(s: string, sub: string)
    ensures Contains(s, sub) <==> exists i: nat :: OccursAt(s, sub, i)
  {
    if Contains(s, sub) {
      var i := ContainsOccurs(s, sub);
    }
    forall i: nat | OccursAt(s, sub, i)
      ensures Contains(s, sub)
    {
      OccursContains(s, sub, i);
    }
  }

  /** A string that starts with `sub` contains it, wherever it is put after a prefix. */
  lemma {:induction false} ContainsAfterPrefix(prefix: string, rest: string, sub: string)
    requires sub <= rest
    ensures Contains(prefix + rest, sub)
    decreases |prefix|
  {
    if prefix == [] {
      assert prefix + rest == rest;
    } else {
      assert (prefix + rest)[1..] == prefix[1..] + rest;
      ContainsAfterPrefix(prefix[1..], rest, sub);
    }
  }

  /** Appending to a string keeps every substring it had. */
  lemma {:induction false} ContainsBeforeSuffix(s: string, suffix: string, sub: string)
    requires Contains(s, sub)
    ensures Contains(s + suffix, sub)
    decreases |s|
  {
    if sub <= s {
      assert (s + suffix)[..|sub|] == s[..|sub|];
    } else {
      assert (s + suffix)[1..] == s[1..] + suffix;
      ContainsBeforeSuffix(s[1..], suffix, sub);
    }
  }

  predicate ColonFree(s: string)
  {
    forall i :: 0 <= i < |s| ==> s[i] != ':'
  }

  lemma ColonFreeConcat(a: string, b: string)
    requires ColonFree(a) && ColonFree(b)
    ensures ColonFree(a + b)
  {
    forall i | 0 <= i < |a + b|
      ensures (a + b)[i] != ':'
    {
      if i >= |a| {
        assert (a + b)[i] == b[i - |a|];
      }
    }
  }

  /** A string without a colon contains nothing that has one, ":" and "://" among them. */
  lemma {:induction false} NoColonNoContains(s: string, sub: string)
    requires ColonFree(s)
    requires |sub| > 0 && sub[0] == ':'
    ensures !Contains(s, sub)
    decreases |s|
  {
    if |s| > 0 {
      assert s[0] != ':';
      NoColonNoContains(s[1..], sub);
    }
  }

  function DigitChar(d: nat): (c: char)
    requires d < 10
    ensures '0' <= c <= '9'
  {
    "0123456789"[d]
  }

  /** Decimal digits of a natural number, most significant first. */
  function NatDigits(n: nat): (s: string)
    ensures |s| > 0
    ensures forall i :: 0 <= i < |s| ==> '0' <= s[i] <= '9'
    decreases n
  {
    if n < 10 then [DigitChar(n)] else NatDigits(n / 10) + [DigitChar(n % 10)]
  }

  /** `strconv.Itoa(n)`: base-10, with a leading '-' for negative numbers. */
  function Itoa(n: int): (s: string)
    ensures |s| > 0
    ensures (s[0] == '-') <==> n < 0
  {
    if n < 0 then "-" + NatDigits(-n) else NatDigits(n)
  }

  /** The value of a string of decimal digits, most significant first. */
  function DigitsValue(s: string): nat
  {
    if s == [] then 0
    else DigitsValue(s[..|s| - 1]) * 10 + (if '0' <= s[|s| - 1] <= '9' then (s[|s| - 1] - '0') as nat else 0)
  }

  /** `strconv.Atoi` on the strings `Itoa` produces. */
  function Atoi(s: string): int
  {
    if |s| > 0 && s[0] == '-' then -(DigitsValue(s[1..]) as int) else DigitsValue(s)
  }

  lemma DigitCharValue(d: nat)
    requires d < 10
    ensures (DigitChar(d) - '0') as nat == d
  {
  }

  lemma {:induction false} NatDigitsRoundTrip(n: nat)
    ensures DigitsValue(NatDigits(n)) == n
    decreases n
  {
    DigitCharValue(n % 10);
    if n >= 10 {
      NatDigitsRoundTrip(n / 10);
      var s := NatDigits(n);
      assert s[..|s| - 1] == NatDigits(n / 10);
    }
  }

  /** `Itoa` loses nothing: `Atoi` reads the number back, so different numbers give
      different strings. */
  lemma ItoaRoundTrip(n: int)
    ensures Atoi(Itoa(n)) == n
    ensures forall m :: Itoa(m) == Itoa(n) ==> m == n
  {
    NatDigitsRoundTrip(if n < 0 then -n else n);
    if n < 0 {
      assert Itoa(n)[1..] == NatDigits(-n);
    }
    forall m | Itoa(m) == Itoa(n)
      ensures m == n
    {
      NatDigitsRoundTrip(if m < 0 then -m else m);
      if m < 0 {
        assert Itoa(m)[1..] == NatDigits(-m);
      }
    }
  }

  /** `strconv.FormatBool(b)`. */
  function FormatBool(b: bool): string
  {
    if b then "true" else "false"
  }
}
