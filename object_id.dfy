/** Store-generated record identifiers: 12-byte (96-bit) values, written in
    callback data as 24 lower-case hexadecimal digits and read back from text
    the way an ObjectId is built from a string (exactly 24 hex digits of either
    case, anything else rejected). */
module ObjectIds {
  import opened Common

  const IdDigits: nat := 24

  function Pow16(k: nat): (r: nat)
    ensures r >= 1
  {
    if k == 0 then 1 else 16 * Pow16(k - 1)
  }

  type ObjectId = n: nat | n < Pow16(IdDigits)

  /** Lower-case hexadecimal digit of a value below 16. */
  function HexDigit(d: nat): (c: char)
    requires d < 16
  {
    if d < 10 then ('0' as int + d) as char else ('a' as int + d - 10) as char
  }

  predicate IsLowerHex(c: char)
  {
    '0' <= c <= '9' || 'a' <= c <= 'f'
  }

  /** Value of a hexadecimal digit of either case. */
  function HexValue(c: char): (r: Option<nat>)
    ensures r.Some? ==> r.value < 16
  {
    if '0' <= c <= '9' then Some(c as int - '0' as int)
    else if 'a' <= c <= 'f' then Some(c as int - 'a' as int + 10)
    else if 'A' <= c <= 'F' then Some(c as int - 'A' as int + 10)
    else None
  }

  /** The low `width` hexadecimal digits of `n`, most significant first. */
  function FormatHex(n: nat, width: nat): (s: string)
    ensures |s| == width
    ensures forall i :: 0 <= i < |s| ==> IsLowerHex(s[i])
  {
    if width == 0 then [] else FormatHex(n / 16, width - 1) + [HexDigit(n % 16)]
  }

  /** The number a string of hexadecimal digits denotes; None if any character
      is not a hexadecimal digit. */
  function ParseHex(s: string): (r: Option<nat>)
    ensures r.Some? <==> forall i :: 0 <= i < |s| ==> HexValue(s[i]).Some?
    ensures r.Some? ==> r.value < Pow16(|s|)
  {
    if s == [] then Some(0)
    else
      var init := s[..|s| - 1];
      assert forall i :: 0 <= i < |init| ==> init[i] == s[i];
      match (ParseHex(init), HexValue(s[|s| - 1]))
      case (Some(v), Some(d)) => Some(16 * v + d)
      case _ => None
  }

  /** The textual form of an id, as it appears after a callback prefix. */
  function FormatObjectId(id: ObjectId): (s: string)
    ensures |s| == IdDigits
    ensures forall i :: 0 <= i < |s| ==> IsLowerHex(s[i])
  {
    FormatHex(id, IdDigits)
  }

  /** Reads an id from text: exactly 24 hexadecimal digits, otherwise invalid. */
  function ParseObjectId(s: string): (r: Option<ObjectId>)
    ensures r.Some? <==> |s| == IdDigits && forall i :: 0 <= i < |s| ==> HexValue(s[i]).Some?
  {
    if |s| != IdDigits then None
    else match ParseHex(s)
      case None => None
      case Some(v) => Some(v)
  }

  lemma HexValueOfDigit(d: nat)
    requires d < 16
    ensures HexValue(HexDigit(d)) == Some(d)
  {
  }

  lemma {:induction false} ParseFormatHex(n: nat, width: nat)
    requires n < Pow16(width)
    ensures ParseHex(FormatHex(n, width)) == Some(n)
  {
    if width > 0 {
      var s := FormatHex(n, width);
      assert s[..|s| - 1] == FormatHex(n / 16, width - 1);
      assert s[|s| - 1] == HexDigit(n % 16);
      ParseFormatHex(n / 16, width - 1);
      HexValueOfDigit(n % 16);
    }
  }

  /** Formatting an id and reading it back gives the same id. */
  lemma ObjectIdRoundTrip(id: ObjectId)
    ensures ParseObjectId(FormatObjectId(id)) == Some(id)
  {
    ParseFormatHex(id, IdDigits);
  }

  lemma {:induction false} FormatParseHex(s: string)
    requires ParseHex(s).Some?
    ensures FormatHex(ParseHex(s).value, |s|) == Lowered(s)
  {
    if s != [] {
      var init := s[..|s| - 1];
      assert forall i :: 0 <= i < |init| ==> init[i] == s[i];
      FormatParseHex(init);
      LoweredSnoc(init, s[|s| - 1]);
      assert init + [s[|s| - 1]] == s;
      var v := ParseHex(init).value;
      var d := HexValue(s[|s| - 1]).value;
      assert ParseHex(s).value == 16 * v + d;
      assert (16 * v + d) / 16 == v && (16 * v + d) % 16 == d;
      assert HexDigit(d) == LowerAscii(s[|s| - 1]);
    }
  }

  /** Two spellings of the same id that differ only in the case of their hex
      letters denote the same id, and the canonical spelling is the lower-case one. */
  lemma ParseObjectIdCanonical(s: string)
    requires ParseObjectId(s).Some?
    ensures FormatObjectId(ParseObjectId(s).value) == Lowered(s)
  {
    FormatParseHex(s);
  }
}
