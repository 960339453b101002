/**
 * Document identifiers (BSON ObjectIds) and their text form.
 *
 * An ObjectId is 12 bytes; its text form is 24 hexadecimal digits. Parsing
 * accepts upper- and lower-case digits; printing produces lower-case digits.
 * An identifier is modelled as the number those 12 bytes spell, big-endian.
 */
module ObjectIds {
  import opened Wrappers

  /** Number of hexadecimal digits in the text form of an ObjectId. */
  const IdWidth: nat := 24

  function Pow16(k: nat): (p: nat)
    ensures p >= 1
  {
    if k == 0 then 1 else 16 * Pow16(k - 1)
  }

  /** Number of distinct ObjectIds: 2^96. */
  const IdSpace: nat := Pow16(IdWidth)

  type Oid = n: nat | n < IdSpace witness 0

  predicate IsHexDigit(c: char) {
    '0' <= c <= '9' || 'a' <= c <= 'f' || 'A' <= c <= 'F'
  }

  predicate IsUpperHexLetter(c: char) {
    'A' <= c <= 'F'
  }

  function DigitValue(c: char): (d: nat)
    requires IsHexDigit(c)
    ensures d < 16
  {
    if '0' <= c <= '9' then c as int - '0' as int
    else if 'a' <= c <= 'f' then c as int - 'a' as int + 10
    else c as int - 'A' as int + 10
  }

  /** The lower-case digit for a value below 16. */
  function HexDigit(d: nat): (c: char)
    requires d < 16
    ensures IsHexDigit(c) && !IsUpperHexLetter(c)
    ensures DigitValue(c) == d
  {
    if d < 10 then ('0' as int + d) as char else ('a' as int + d - 10) as char
  }

  /** `n` written with exactly `width` lower-case hexadecimal digits, most significant first. */
  function Hex(n: nat, width: nat): (s: string)
    requires n < Pow16(width)
    ensures |s| == width
    ensures forall i :: 0 <= i < |s| ==> IsHexDigit(s[i]) && !IsUpperHexLetter(s[i])
  {
    if width == 0 then "" else Hex(n / 16, width - 1) + [HexDigit(n % 16)]
  }

  /** The number a string of hexadecimal digits spells, most significant first. */
  function ParseHex(s: string): (n: nat)
    requires forall i :: 0 <= i < |s| ==> IsHexDigit(s[i])
    ensures n < Pow16(|s|)
  {
    if s == [] then 0 else ParseHex(s[..|s| - 1]) * 16 + DigitValue(s[|s| - 1])
  }

  lemma {:induction false} ParseHexOfHex(n: nat, width: nat)
    requires n < Pow16(width)
    ensures ParseHex(Hex(n, width)) == n
  {
    if width > 0 {
      var s := Hex(n, width);
      assert s[..width - 1] == Hex(n / 16, width - 1);
      ParseHexOfHex(n / 16, width - 1);
    }
  }

  /**
   * The strings of 24 hexadecimal digits, which `ObjectId(s)` accepts; the
   * whitespace-separated forms that `bytes.fromhex` also accepts are not modelled.
   */
  predicate WellFormedId(s: string) {
    |s| == IdWidth && forall i :: 0 <= i < |s| ==> IsHexDigit(s[i])
  }

  /** `ObjectId(s)` for a string `s`: the identifier, or None where the constructor raises. */
  function ParseId(s: string): (r: Option<Oid>)
    ensures r.Some? <==> WellFormedId(s)
  {
    if WellFormedId(s) then Some(ParseHex(s)) else None
  }

  /** `str(oid)`: the 24 lower-case hexadecimal digits of an identifier. */
  function IdString(id: Oid): (s: string)
    ensures WellFormedId(s)
    ensures forall i :: 0 <= i < |s| ==> !IsUpperHexLetter(s[i])
  {
    Hex(id, IdWidth)
  }

  /** Parsing the printed form of an identifier gives that identifier back. */
  lemma IdStringRoundTrip(id: Oid)
    ensures ParseId(IdString(id)) == Some(id)
  {
    ParseHexOfHex(id, IdWidth);
  }

  /** `s` with the hexadecimal letters A-F written in lower case. */
  function LowerHex(s: string): (t: string)
    ensures |t| == |s|
    ensures forall i :: 0 <= i < |s| ==> (IsHexDigit(t[i]) <==> IsHexDigit(s[i])) && !IsUpperHexLetter(t[i])
  {
    if s == [] then ""
    else
      var c := s[|s| - 1];
      LowerHex(s[..|s| - 1]) + [if IsUpperHexLetter(c) then (c as int - 'A' as int + 'a' as int) as char else c]
  }

  /** Parsing ignores the case of the digits: upper- and lower-case text name the same identifier. */
  lemma {:induction false} ParseIdIgnoresCase(s: string)
    ensures ParseId(LowerHex(s)) == ParseId(s)
  {
    if WellFormedId(s) {
      ParseHexIgnoresCase(s);
    }
  }

  lemma {:induction false} ParseHexIgnoresCase(s: string)
    requires forall i :: 0 <= i < |s| ==> IsHexDigit(s[i])
    ensures forall i :: 0 <= i < |s| ==> IsHexDigit(LowerHex(s)[i])
    ensures ParseHex(LowerHex(s)) == ParseHex(s)
  {
    if s != [] {
      var t := LowerHex(s);
      ParseHexIgnoresCase(s[..|s| - 1]);
      assert t[..|s| - 1] == LowerHex(s[..|s| - 1]);
    }
  }

  /** Printing the number a digit string spells gives back that string in lower case. */
  lemma {:induction false} HexOfParseHex(s: string)
    requires forall i :: 0 <= i < |s| ==> IsHexDigit(s[i])
    ensures ParseHex(s) < Pow16(|s|)
    ensures Hex(ParseHex(s), |s|) == LowerHex(s)
  {
    if s != [] {
      var init := s[..|s| - 1];
      var last := s[|s| - 1];
      HexOfParseHex(init);
      assert ParseHex(s) == ParseHex(init) * 16 + DigitValue(last);
      assert ParseHex(s) / 16 == ParseHex(init);
      assert ParseHex(s) % 16 == DigitValue(last);
      assert LowerHex(s) == LowerHex(init) + [LowerHex(s)[|s| - 1]];
    }
  }

  /**
   * A well-formed text names the identifier whose printed form is that text in
   * lower case: with the round trip above, text names identifier `id` exactly
   * when it spells `IdString(id)` in either case.
   */
  lemma ParseIdThenPrint(s: string)
    ensures WellFormedId(s) ==> IdString(ParseId(s).value) == LowerHex(s)
  {
    if WellFormedId(s) {
      HexOfParseHex(s);
    }
  }

  /** A text names identifier `id` exactly when it spells `str(id)`, in either case. */
  lemma TextNamesId(s: string, id: Oid)
    ensures ParseId(s) == Some(id) <==> WellFormedId(s) && LowerHex(s) == IdString(id)
  {
    ParseIdThenPrint(s);
    ParseIdIgnoresCase(s);
    IdStringRoundTrip(id);
  }

  /** Distinct identifiers print differently. */
  lemma IdStringInjective(a: Oid, b: Oid)
    ensures IdString(a) == IdString(b) ==> a == b
  {
    IdStringRoundTrip(a);
    IdStringRoundTrip(b);
  }
}
