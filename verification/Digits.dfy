// Decimal digit strings and the numbers they spell.

module Digits {
  import opened Decimals

  predicate IsDigit(c: char) {
    '0' <= c <= '9'
  }

  predicate AllDigits(s: string) {
    forall i :: 0 <= i < |s| ==> IsDigit(s[i])
  }

  function DigitValue(c: char): (d: nat)
    requires IsDigit(c)
    ensures d < 10
  {
    c as int - '0' as int
  }

  function DigitChar(d: nat): (c: char)
    requires d < 10
    ensures IsDigit(c) && DigitValue(c) == d
  {
    ('0' as int + d) as char
  }

  // The number a digit string spells; the empty string spells zero.
  function Number(s: string): nat
    requires AllDigits(s)
  {
    if s == [] then 0 else Number(s[..|s| - 1]) * 10 + DigitValue(s[|s| - 1])
  }

  // The shortest spelling of a number.
  function Spelled(n: nat): (s: string)
    ensures s != [] && AllDigits(s)
  {
    if n < 10 then [DigitChar(n)] else Spelled(n / 10) + [DigitChar(n % 10)]
  }

  // The last width digits of a number, padded with zeros on the left.
  function Padded(n: nat, width: nat): (s: string)
    ensures |s| == width && AllDigits(s)
  {
    if width == 0 then [] else Padded(n / 10, width - 1) + [DigitChar(n % 10)]
  }

  function Zeros(k: nat): (s: string)
    ensures |s| == k && AllDigits(s) && forall i :: 0 <= i < k ==> s[i] == '0'
  {
    seq(k, _ => '0')
  }

  // Leading zeros go as long as a digit follows.
  function DropZeros(s: string): (r: string)
    ensures AllDigits(s) ==> AllDigits(r)
  {
    if |s| > 1 && s[0] == '0' && IsDigit(s[1]) then DropZeros(s[1..]) else s
  }

  // Trailing zeros go.
  function TrimZeros(s: string): (r: string)
    ensures |r| <= |s| && r == s[..|r|]
    ensures r != [] ==> r[|r| - 1] != '0'
  {
    if s != [] && s[|s| - 1] == '0' then TrimZeros(s[..|s| - 1]) else s
  }

  lemma {:induction false} TrimmedZeros(s: string)
    ensures s == TrimZeros(s) + Zeros(|s| - |TrimZeros(s)|)
  {
    if s != [] && s[|s| - 1] == '0' {
      TrimmedZeros(s[..|s| - 1]);
    }
  }

  lemma {:induction false} NumberSpelled(n: nat)
    ensures Number(Spelled(n)) == n
  {
    var s := Spelled(n);
    if n < 10 {
      assert s[..0] == [];
    } else {
      NumberSpelled(n / 10);
      assert s[..|s| - 1] == Spelled(n / 10);
    }
  }

  lemma {:induction false} NumberPadded(n: nat, width: nat)
    requires n < Pow(10, width)
    ensures Number(Padded(n, width)) == n
  {
    if width > 0 {
      TenthBelow(n, Pow(10, width - 1));
      NumberPadded(n / 10, width - 1);
      NumberAppend(Padded(n / 10, width - 1), DigitChar(n % 10));
    }
  }

  lemma TenthBelow(n: nat, p: nat)
    requires n < 10 * p
    ensures n / 10 < p
  {
  }

  lemma NumberAppend(s: string, c: char)
    requires AllDigits(s) && IsDigit(c)
    ensures Number(s + [c]) == Number(s) * 10 + DigitValue(c)
  {
    assert (s + [c])[..|s|] == s;
  }

  lemma {:induction false} NumberBelow(s: string)
    requires AllDigits(s)
    ensures Number(s) < Pow(10, |s|)
  {
    if s != [] {
      NumberBelow(s[..|s| - 1]);
    }
  }

  lemma {:induction false} PaddedNumber(s: string)
    requires AllDigits(s)
    ensures Padded(Number(s), |s|) == s
  {
    if s != [] {
      var init, last := s[..|s| - 1], s[|s| - 1];
      PaddedNumber(init);
      assert s == init + [last];
      assert DigitChar(DigitValue(last)) == last;
    }
  }

  lemma {:induction false} NumberOfZero(s: string)
    requires AllDigits(s) && Number(s) == 0
    ensures TrimZeros(s) == []
  {
    if s != [] {
      NumberOfZero(s[..|s| - 1]);
    }
  }

  lemma {:induction false} NumberPositive(s: string)
    requires AllDigits(s) && TrimZeros(s) == []
    ensures Number(s) == 0
  {
    if s != [] {
      assert s[|s| - 1] == '0';
      NumberPositive(s[..|s| - 1]);
    }
  }

  // A leading zero does not change the number.
  lemma {:induction false} NumberDropZero(s: string)
    requires AllDigits(s) && s != [] && s[0] == '0'
    ensures Number(s) == Number(s[1..])
  {
    if |s| == 1 {
      assert s[..0] == [] && s[1..] == [];
    } else {
      NumberDropZero(s[..|s| - 1]);
      assert s[1..][..|s| - 2] == s[..|s| - 1][1..];
    }
  }

  // No leading zero, unless the string is the digit zero.
  predicate Lean(s: string) {
    s != [] && (|s| > 1 ==> s[0] != '0')
  }

  lemma {:induction false} LeanPositive(s: string)
    requires AllDigits(s) && Lean(s) && |s| > 1
    ensures Number(s) >= 10
  {
    var init := s[..|s| - 1];
    if |s| == 2 {
      assert init[..0] == [];
      assert Number(init) == DigitValue(init[0]);
    } else {
      LeanPositive(init);
    }
  }

  lemma {:induction false} SpelledLean(s: string)
    requires AllDigits(s) && Lean(s)
    ensures Spelled(Number(s)) == s
  {
    var init, last := s[..|s| - 1], s[|s| - 1];
    assert s == init + [last] && DigitChar(DigitValue(last)) == last;
    if |s| == 1 {
      assert init == [];
    } else {
      LeanPositive(s);
      SpelledLean(init);
      assert Number(s) / 10 == Number(init) && Number(s) % 10 == DigitValue(last);
    }
  }

  // Dropping leading zeros gives the shortest spelling of the same number.
  lemma {:induction false} SpelledNumber(s: string)
    requires AllDigits(s) && s != []
    ensures Spelled(Number(s)) == DropZeros(s)
  {
    if |s| > 1 && s[0] == '0' {
      NumberDropZero(s);
      SpelledNumber(s[1..]);
    } else {
      SpelledLean(s);
    }
  }

  // Zeros on the right do not survive trimming.
  lemma {:induction false} TrimPadding(s: string, k: nat)
    ensures TrimZeros(s + Zeros(k)) == TrimZeros(s)
  {
    if k == 0 {
      assert s + Zeros(0) == s;
    } else {
      var padded := s + Zeros(k);
      assert padded[..|padded| - 1] == s + Zeros(k - 1);
      TrimPadding(s, k - 1);
    }
  }
}
