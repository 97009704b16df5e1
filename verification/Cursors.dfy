/** Page cursors: an offset written as `o` and its digits, in unpadded base64url (section 5 of RFC 4648). */
module Cursors {
  import opened Outcomes
  import opened Decimals

  type Byte = b: int | 0 <= b < 256
  type Sextet = v: int | 0 <= v < 64

  function Symbol(v: Sextet): char {
    if v < 26 then 'A' + v as char
    else if v < 52 then 'a' + (v - 26) as char
    else if v < 62 then '0' + (v - 52) as char
    else if v == 62 then '-' else '_'
  }

  /** The decoder takes the symbols of plain base64 too, and passes over characters of neither alphabet. */
  function ValueOf(c: char): Option<Sextet> {
    if 'A' <= c <= 'Z' then Some((c - 'A') as int)
    else if 'a' <= c <= 'z' then Some((c - 'a') as int + 26)
    else if '0' <= c <= '9' then Some((c - '0') as int + 52)
    else if c == '-' || c == '+' then Some(62)
    else if c == '_' || c == '/' then Some(63)
    else None
  }

  function Sextets(bytes: seq<Byte>): seq<Sextet> {
    if bytes == [] then []
    else if |bytes| == 1 then [bytes[0] / 4, bytes[0] % 4 * 16]
    else if |bytes| == 2 then [bytes[0] / 4, bytes[0] % 4 * 16 + bytes[1] / 16, bytes[1] % 16 * 4]
    else [bytes[0] / 4, bytes[0] % 4 * 16 + bytes[1] / 16, bytes[1] % 16 * 4 + bytes[2] / 64, bytes[2] % 64] + Sextets(bytes[3..])
  }

  /** Six bits left over at the end are dropped. */
  function Bytes(s: seq<Sextet>): seq<Byte> {
    if |s| < 2 then []
    else
      var first: Byte := s[0] as int * 4 + s[1] / 16;
      if |s| == 2 then [first]
      else
        var second: Byte := s[1] as int % 16 * 16 + s[2] / 4;
        if |s| == 3 then [first, second]
        else
          var third: Byte := s[2] as int % 4 * 64 + s[3];
          [first, second, third] + Bytes(s[4..])
  }

  function Symbols(s: seq<Sextet>): string {
    if s == [] then "" else [Symbol(s[0])] + Symbols(s[1..])
  }

  function Values(text: string): seq<Sextet> {
    if text == "" || text[0] == '=' then []
    else
      match ValueOf(text[0])
      case None => Values(text[1..])
      case Some(v) => [v] + Values(text[1..])
  }

  function Encode(bytes: seq<Byte>): string {
    Symbols(Sextets(bytes))
  }

  function Decode(text: string): seq<Byte> {
    Bytes(Values(text))
  }

  lemma SymbolHasItsValue(v: Sextet)
    ensures ValueOf(Symbol(v)) == Some(v) && Symbol(v) != '='
  {
  }

  lemma {:induction false} SymbolsHaveTheirValues(s: seq<Sextet>)
    ensures Values(Symbols(s)) == s
  {
    if s != [] {
      SymbolsHaveTheirValues(s[1..]);
      FirstValue(s[0], Symbols(s[1..]));
      hide Symbol, Values;
    }
  }

  lemma FirstValue(v: Sextet, rest: string)
    ensures Values([Symbol(v)] + rest) == [v] + Values(rest)
  {
    SymbolHasItsValue(v);
    hide Symbol, ValueOf;
    assert ([Symbol(v)] + rest)[1..] == rest;
  }

  lemma {:induction false} SextetsKeepBytes(bytes: seq<Byte>)
    ensures Bytes(Sextets(bytes)) == bytes
  {
    if |bytes| >= 3 {
      SextetsKeepBytes(bytes[3..]);
      assert Sextets(bytes)[4..] == Sextets(bytes[3..]);
      assert bytes == bytes[..3] + bytes[3..];
    }
  }

  /** Decoding gives back what was encoded, for any bytes. */
  lemma EncodedDecodes(bytes: seq<Byte>)
    ensures Decode(Encode(bytes)) == bytes
  {
    SextetsKeepBytes(bytes);
    SymbolsHaveTheirValues(Sextets(bytes));
  }

  // ---- cursors ----

  predicate IsAscii(text: string) {
    forall i :: 0 <= i < |text| ==> text[i] < '\U{80}'
  }

  function Ascii(text: string): seq<Byte>
    requires IsAscii(text)
  {
    if text == "" then [] else [text[0] as int] + Ascii(text[1..])
  }

  function Latin(bytes: seq<Byte>): string {
    if bytes == [] then "" else [bytes[0] as char] + Latin(bytes[1..])
  }

  lemma DigitsAreAscii(n: nat)
    ensures IsAscii("o" + ToDecimal(n))
  {
    PrintedReadsBack(n);
  }

  function EncodeCursor(offset: nat): string {
    DigitsAreAscii(offset);
    Encode(Ascii("o" + ToDecimal(offset)))
  }

  /** A missing, empty or foreign cursor starts over. Bytes beyond ASCII never belong to a cursor, however they are read. */
  function DecodeCursor(cursor: Option<string>): nat {
    if cursor.None? || cursor.value == "" then 0
    else
      var text := Latin(Decode(cursor.value));
      if |text| > 1 && text[0] == 'o' && AllDigits(text[1..]) then FromDigits(text[1..]) else 0
  }

  lemma {:induction false} LatinOfAscii(text: string)
    requires IsAscii(text)
    ensures Latin(Ascii(text)) == text
  {
    if text != "" {
      LatinOfAscii(text[1..]);
    }
  }

  /** Every cursor that was handed out leads back to its offset. */
  lemma CursorLeadsBack(offset: nat)
    ensures DecodeCursor(Some(EncodeCursor(offset))) == offset && EncodeCursor(offset) != ""
  {
    var text := "o" + ToDecimal(offset);
    DigitsAreAscii(offset);
    PrintedReadsBack(offset);
    EncodedDecodes(Ascii(text));
    LatinOfAscii(text);
    hide Encode, Ascii, Latin, ToDecimal;
    assert text[1..] == ToDecimal(offset);
    assert EncodeCursor(offset) != "" by { EmptyDecodesEmpty(); }
  }

  lemma EmptyDecodesEmpty()
    ensures Decode("") == [] && Latin([]) == ""
  {
  }
}
