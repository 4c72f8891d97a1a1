/**
 Standard base64, section 4 of RFC 4648, with Go's decoder: line breaks are skipped and trailing bits are not
 checked.
 */
module Base64 {
  import opened Prelude

  type Byte = x: int | 0 <= x < 256

  type Sextet = x: int | 0 <= x < 64

  function Letter(n: Sextet): char {
    if n < 26 then 'A' + n as char
    else if n < 52 then 'a' + (n - 26) as char
    else if n < 62 then '0' + (n - 52) as char
    else if n == 62 then '+'
    else '/'
  }

  function LetterValue(c: char): Option<Sextet> {
    if 'A' <= c <= 'Z' then Some((c - 'A') as int)
    else if 'a' <= c <= 'z' then Some((c - 'a') as int + 26)
    else if '0' <= c <= '9' then Some((c - '0') as int + 52)
    else if c == '+' then Some(62)
    else if c == '/' then Some(63)
    else None
  }

  /** The second letter takes the low bits of one byte and the high bits of the next; so does the third. */
  function Second(b0: Byte, b1: Byte): Sextet {
    b0 % 4 * 16 + b1 / 16
  }

  function Third(b1: Byte, b2: Byte): Sextet {
    b1 % 16 * 4 + b2 / 64
  }

  function Byte0(n0: Sextet, n1: Sextet): Byte {
    n0 * 4 + n1 / 16
  }

  function Byte1(n1: Sextet, n2: Sextet): Byte {
    n1 % 16 * 16 + n2 / 4
  }

  function Byte2(n2: Sextet, n3: Sextet): Byte {
    n2 % 4 * 64 + n3
  }

  predicate LineBreak(c: char) {
    c == '\r' || c == '\n'
  }

  /** EncodeToString. */
  function Encode(b: seq<Byte>): string {
    if b == [] then []
    else if |b| == 1 then [Letter(b[0] / 4), Letter(Second(b[0], 0)), '=', '=']
    else if |b| == 2 then [Letter(b[0] / 4), Letter(Second(b[0], b[1])), Letter(Third(b[1], 0)), '=']
    else [Letter(b[0] / 4), Letter(Second(b[0], b[1])), Letter(Third(b[1], b[2])), Letter(b[2] % 64)]
         + Encode(b[3..])
  }

  function WithoutBreaks(s: string): string {
    if s == [] then [] else (if LineBreak(s[0]) then [] else [s[0]]) + WithoutBreaks(s[1..])
  }

  /** Four letters at a time; padding may only close the text. */
  function DecodeQuanta(s: string): Option<seq<Byte>> {
    if s == [] then Some([])
    else if |s| < 4 then None
    else
      var v0, v1, v2, v3 := LetterValue(s[0]), LetterValue(s[1]), LetterValue(s[2]), LetterValue(s[3]);
      if v0.None? || v1.None? then None
      else if s[2] == '=' then
        if s[3] == '=' && |s| == 4 then Some([Byte0(v0.value, v1.value)]) else None
      else if v2.None? then None
      else if s[3] == '=' then
        if |s| == 4 then Some([Byte0(v0.value, v1.value), Byte1(v1.value, v2.value)]) else None
      else if v3.None? then None
      else
        var rest := DecodeQuanta(s[4..]);
        if rest.None? then None
        else Some([Byte0(v0.value, v1.value), Byte1(v1.value, v2.value), Byte2(v2.value, v3.value)] + rest.value)
  }

  /** DecodeString. */
  function Decode(s: string): Option<seq<Byte>> {
    DecodeQuanta(WithoutBreaks(s))
  }

  lemma LetterReads(n: Sextet)
    ensures LetterValue(Letter(n)) == Some(n) && Letter(n) != '=' && !LineBreak(Letter(n))
  {
  }

  lemma {:induction false} NoBreaksToSkip(s: string)
    requires forall i :: 0 <= i < |s| ==> !LineBreak(s[i])
    ensures WithoutBreaks(s) == s
  {
    if s == [] {
    } else {
      NoBreaksToSkip(s[1..]);
    }
  }

  lemma {:induction false} EncodesLetters(b: seq<Byte>)
    ensures forall i :: 0 <= i < |Encode(b)| ==> !LineBreak(Encode(b)[i])
    ensures b != [] ==> Encode(b) != []
  {
    if |b| >= 3 {
      EncodesLetters(b[3..]);
    }
  }

  lemma BytesJoin(b0: Byte, b1: Byte, b2: Byte)
    ensures Byte0(b0 / 4, Second(b0, b1)) == b0
    ensures Byte1(Second(b0, b1), Third(b1, b2)) == b1
    ensures Byte2(Third(b1, b2), b2 % 64) == b2
  {
  }

  lemma ShortInverts(b: seq<Byte>)
    requires 0 < |b| < 3
    ensures DecodeQuanta(Encode(b)) == Some(b)
  {
    hide Letter, LetterValue, Byte0, Byte1, Byte2, Second, Third;
    var b1: Byte := if |b| == 1 then 0 else b[1];
    BytesJoin(b[0], b1, 0);
    LetterReads(b[0] / 4);
    LetterReads(Second(b[0], b1));
    LetterReads(Third(b1, 0));
    assert b == if |b| == 1 then [b[0]] else [b[0], b1];
  }

  lemma {:induction false} QuantaInvert(b: seq<Byte>)
    ensures DecodeQuanta(Encode(b)) == Some(b)
  {
    hide Letter, LetterValue, Byte0, Byte1, Byte2, Second, Third;
    if b == [] {
    } else if |b| < 3 {
      ShortInverts(b);
    } else {
      QuantaInvert(b[3..]);
      BytesJoin(b[0], b[1], b[2]);
      LetterReads(b[0] / 4);
      LetterReads(Second(b[0], b[1]));
      LetterReads(Third(b[1], b[2]));
      LetterReads(b[2] % 64);
      assert Encode(b)[4..] == Encode(b[3..]);
      assert b == [b[0], b[1], b[2]] + b[3..];
    }
  }

  /** Decoding inverts encoding for every byte string. */
  lemma DecodeEncode(b: seq<Byte>)
    ensures Decode(Encode(b)) == Some(b)
  {
    EncodesLetters(b);
    NoBreaksToSkip(Encode(b));
    QuantaInvert(b);
  }

  /** The alphabet of section 4 of RFC 4648: its runs, in order, and the two letters after them. */
  lemma Alphabet()
    ensures Letter(0) == 'A' && Letter(26) == 'a' && Letter(52) == '0' && Letter(62) == '+' && Letter(63) == '/'
    ensures forall n: Sextet ::
        0 < n < 62 && n != 26 && n != 52 ==> Letter(n) as int == Letter(n - 1) as int + 1
  {
  }

  /** Test vectors of its section 10. */
  lemma Vectors()
    ensures Encode([102]) == "Zg==" && Encode([102, 111]) == "Zm8=" && Encode([102, 111, 111]) == "Zm9v"
    ensures Encode([102, 111, 111, 98]) == "Zm9vYg==" && Encode([102, 111, 111, 98, 97, 114]) == "Zm9vYmFy"
  {
  }
}
