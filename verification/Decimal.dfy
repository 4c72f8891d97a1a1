/** Decimal text as Go's strconv and CEL print and read it. */
module Decimal {
  import opened Prelude
  import opened AnchorRecord

  function DigitChar(d: nat): char
    requires d < 10
  {
    '0' + d as char
  }

  predicate IsDigit(c: char) {
    '0' <= c <= '9'
  }

  predicate AllDigits(s: string) {
    forall i :: 0 <= i < |s| ==> IsDigit(s[i])
  }

  function FormatNat(n: nat): string {
    if n < 10 then [DigitChar(n)] else FormatNat(n / 10) + [DigitChar(n % 10)]
  }

  function FormatInt(n: int): string {
    if n < 0 then "-" + FormatNat(-n) else FormatNat(n)
  }

  /** The number a digit string stands for, leading zeros included. */
  function DigitsValue(s: string): nat
    requires AllDigits(s)
  {
    if s == [] then 0 else 10 * DigitsValue(s[..|s| - 1]) + (s[|s| - 1] - '0') as nat
  }

  /** strconv.ParseUint(s, 10, 64). */
  function ParseUint(s: string): Option<nat> {
    if s != [] && AllDigits(s) && DigitsValue(s) <= MAX_UINT64 then Some(DigitsValue(s)) else None
  }

  /** strconv.ParseInt(s, 10, 64): one optional sign, then digits. */
  function ParseInt(s: string): Option<int> {
    var signed := s != [] && (s[0] == '-' || s[0] == '+');
    var digits := if signed then s[1..] else s;
    if digits == [] || !AllDigits(digits) then None
    else
      var v := if signed && s[0] == '-' then -(DigitsValue(digits) as int) else DigitsValue(digits) as int;
      if -MAX_INT64 - 1 <= v <= MAX_INT64 then Some(v) else None
  }

  /** `parseAnchorEpoch`: the text must be the one FormatInt prints. */
  function ParseEpoch(raw: string): Option<int> {
    var v := ParseInt(raw);
    if v.Some? && FormatInt(v.value) == raw then v else None
  }

  /** `parseAnchorGeneration`. */
  function ParseGeneration(raw: string): Option<nat> {
    var v := ParseUint(raw);
    if v.Some? && FormatNat(v.value) == raw then v else None
  }

  lemma {:induction false} FormatNatReads(n: nat)
    ensures FormatNat(n) != [] && AllDigits(FormatNat(n)) && DigitsValue(FormatNat(n)) == n
  {
    if n < 10 {
      assert [DigitChar(n)][..0] == [];
    } else {
      FormatNatReads(n / 10);
      var s := FormatNat(n);
      assert s[..|s| - 1] == FormatNat(n / 10);
    }
  }

  /** An epoch is read exactly from the text it prints as. */
  lemma ParseEpochExact(raw: string, n: int)
    ensures ParseEpoch(raw) == Some(n) <==> raw == FormatInt(n) && -MAX_INT64 - 1 <= n <= MAX_INT64
  {
    FormatNatReads(if n < 0 then -n else n);
    if raw == FormatInt(n) {
      if n < 0 {
        assert raw[1..] == FormatNat(-n);
      } else {
        assert IsDigit(raw[0]);
      }
    }
  }

  /** A generation is read exactly from the text it prints as. */
  lemma ParseGenerationExact(raw: string, n: nat)
    ensures ParseGeneration(raw) == Some(n) <==> raw == FormatNat(n) && n <= MAX_UINT64
  {
    FormatNatReads(n);
  }

  /** Of all the digit strings that stand for a number, the printed one is the one without leading zeros. */
  lemma {:induction false} FormatNatExact(s: string, n: nat)
    ensures s == FormatNat(n) <==>
              s != "" && AllDigits(s) && DigitsValue(s) == n && (|s| > 1 ==> s[0] != '0')
  {
    FormatNatReads(n);
    NoLeadingZero(n);
    if s != "" && AllDigits(s) && (|s| > 1 ==> s[0] != '0') {
      PrintsItsValue(s);
    }
  }

  lemma {:induction false} NoLeadingZero(n: nat)
    ensures FormatNat(n) != "" && (n > 0 ==> FormatNat(n)[0] != '0') && (n == 0 ==> FormatNat(n) == "0")
  {
    if n < 10 {
    } else {
      NoLeadingZero(n / 10);
    }
  }

  lemma {:induction false} PrintsItsValue(s: string)
    requires s != "" && AllDigits(s) && (|s| > 1 ==> s[0] != '0')
    ensures FormatNat(DigitsValue(s)) == s
    ensures |s| > 1 ==> DigitsValue(s) >= 10
  {
    var last := s[|s| - 1];
    assert IsDigit(last);
    assert DigitChar((last - '0') as nat) == last;
    if |s| == 1 {
      assert s[..0] == "" && s == [last];
    } else {
      var front := s[..|s| - 1];
      PrintsItsValue(front);
      assert s == front + [last];
      if |front| == 1 {
        assert front[..0] == "" && front[0] != '0' && IsDigit(front[0]);
      }
      assert DigitsValue(s) == 10 * DigitsValue(front) + (last - '0') as nat;
    }
  }
}
