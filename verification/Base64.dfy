/** Base64 as the recovery payload uses it: padded when written; when read, anything outside the alphabet is skipped. */
module Base64 {
  import opened Wrappers

  type Byte = n: nat | n < 256
  type Sextet = n: nat | n < 64

  function Symbol(n: Sextet): char {
    if n < 26 then ('A' as int + n) as char
    else if n < 52 then ('a' as int + n - 26) as char
    else if n < 62 then ('0' as int + n - 52) as char
    else if n == 62 then '+' else '/'
  }

  /** The value of a symbol; the two of the URL alphabet are read as well. */
  function SymbolValue(c: char): Option<Sextet> {
    if 'A' <= c <= 'Z' then Some(c as int - 'A' as int)
    else if 'a' <= c <= 'z' then Some(c as int - 'a' as int + 26)
    else if '0' <= c <= '9' then Some(c as int - '0' as int + 52)
    else if c == '+' || c == '-' then Some(62)
    else if c == '/' || c == '_' then Some(63)
    else None
  }

  // ----- three bytes are four sextets

  function SextetA(x: nat): nat { x / 4 }
  function SextetB(x: nat, y: nat): nat { x % 4 * 16 + y / 16 }
  function SextetC(y: nat, z: nat): nat { y % 16 * 4 + z / 64 }
  function SextetD(z: nat): nat { z % 64 }

  function ByteA(a: nat, b: nat): nat { a * 4 + b / 16 }
  function ByteB(b: nat, c: nat): nat { b % 16 * 16 + c / 4 }
  function ByteC(c: nat, d: nat): nat { c % 4 * 64 + d }

  lemma SextetBounds(x: Byte, y: Byte, z: Byte)
    ensures SextetA(x) < 64 && SextetB(x, y) < 64 && SextetC(y, z) < 64 && SextetD(z) < 64
  {
  }

  lemma ByteBounds(a: Sextet, b: Sextet, c: Sextet, d: Sextet)
    ensures ByteA(a, b) < 256 && ByteB(b, c) < 256 && ByteC(c, d) < 256
  {
  }

  lemma BitsComeBack(x: Byte, y: Byte, z: Byte)
    ensures ByteA(SextetA(x), SextetB(x, y)) == x
    ensures ByteB(SextetB(x, y), SextetC(y, z)) == y
    ensures ByteC(SextetC(y, z), SextetD(z)) == z
  {
  }

  function Encode(bytes: seq<Byte>): string {
    if |bytes| == 0 then ""
    else if |bytes| == 1 then
      SextetBounds(bytes[0], 0, 0);
      [Symbol(SextetA(bytes[0])), Symbol(SextetB(bytes[0], 0)), '=', '=']
    else if |bytes| == 2 then
      SextetBounds(bytes[0], bytes[1], 0);
      [Symbol(SextetA(bytes[0])), Symbol(SextetB(bytes[0], bytes[1])), Symbol(SextetC(bytes[1], 0)), '=']
    else
      SextetBounds(bytes[0], bytes[1], bytes[2]);
      [Symbol(SextetA(bytes[0])), Symbol(SextetB(bytes[0], bytes[1])),
       Symbol(SextetC(bytes[1], bytes[2])), Symbol(SextetD(bytes[2]))] + Encode(bytes[3..])
  }

  /** The symbols up to the padding. */
  function Sextets(text: string): seq<Sextet> {
    if text == "" || text[0] == '=' then []
    else if SymbolValue(text[0]).Some? then [SymbolValue(text[0]).value] + Sextets(text[1..])
    else Sextets(text[1..])
  }

  function Join(s: seq<Sextet>): seq<Byte> {
    if |s| < 2 then []
    else if |s| == 2 then
      ByteBounds(s[0], s[1], 0, 0);
      [ByteA(s[0], s[1])]
    else if |s| == 3 then
      ByteBounds(s[0], s[1], s[2], 0);
      [ByteA(s[0], s[1]), ByteB(s[1], s[2])]
    else
      ByteBounds(s[0], s[1], s[2], s[3]);
      [ByteA(s[0], s[1]), ByteB(s[1], s[2]), ByteC(s[2], s[3])] + Join(s[4..])
  }

  function Decode(text: string): seq<Byte> {
    Join(Sextets(text))
  }

  lemma SymbolHasItsValue(n: Sextet)
    ensures SymbolValue(Symbol(n)) == Some(n) && Symbol(n) != '='
  {
  }

  lemma FirstSymbol(n: Sextet, rest: string)
    ensures Sextets([Symbol(n)] + rest) == [n] + Sextets(rest)
  {
    hide Symbol, SymbolValue;
    SymbolHasItsValue(n);
    assert ([Symbol(n)] + rest)[1..] == rest;
  }

  lemma FourSymbols(a: Sextet, b: Sextet, c: Sextet, d: Sextet, rest: string)
    ensures Sextets([Symbol(a), Symbol(b), Symbol(c), Symbol(d)] + rest) == [a, b, c, d] + Sextets(rest)
  {
    hide Symbol, Sextets;
    var tail := [Symbol(d)] + rest;
    FirstSymbol(d, rest);
    FirstSymbol(c, tail);
    FirstSymbol(b, [Symbol(c)] + tail);
    FirstSymbol(a, [Symbol(b)] + ([Symbol(c)] + tail));
    assert [Symbol(a), Symbol(b), Symbol(c), Symbol(d)] + rest == [Symbol(a)] + ([Symbol(b)] + ([Symbol(c)] + tail));
  }

  lemma Padded(a: Sextet, b: Sextet, c: Sextet)
    ensures Sextets([Symbol(a), Symbol(b), '=', '=']) == [a, b]
    ensures Sextets([Symbol(a), Symbol(b), Symbol(c), '=']) == [a, b, c]
  {
    hide Symbol, SymbolValue;
    FirstSymbol(c, ['=']);
    FirstSymbol(b, ['=', '=']);
    FirstSymbol(b, [Symbol(c)] + ['=']);
    FirstSymbol(a, [Symbol(b)] + ['=', '=']);
    FirstSymbol(a, [Symbol(b)] + ([Symbol(c)] + ['=']));
    assert [Symbol(a), Symbol(b), '=', '='] == [Symbol(a)] + ([Symbol(b)] + ['=', '=']);
    assert [Symbol(a), Symbol(b), Symbol(c), '='] == [Symbol(a)] + ([Symbol(b)] + ([Symbol(c)] + ['=']));
    assert Sextets(['=', '=']) == [] && Sextets(['=']) == [];
  }

  /** Reading what was written gives the bytes back, for every length. */
  lemma {:induction false} RoundTrip(bytes: seq<Byte>)
    ensures Decode(Encode(bytes)) == bytes
    decreases |bytes|
  {
    hide Symbol, Sextets, SextetA, SextetB, SextetC, SextetD, ByteA, ByteB, ByteC;
    if |bytes| == 0 {
      Nothing();
    } else if |bytes| == 1 {
      SextetBounds(bytes[0], 0, 0);
      Padded(SextetA(bytes[0]), SextetB(bytes[0], 0), 0);
      BitsComeBack(bytes[0], 0, 0);
    } else if |bytes| == 2 {
      SextetBounds(bytes[0], bytes[1], 0);
      Padded(SextetA(bytes[0]), SextetB(bytes[0], bytes[1]), SextetC(bytes[1], 0));
      BitsComeBack(bytes[0], bytes[1], 0);
    } else {
      var x, y, z := bytes[0], bytes[1], bytes[2];
      SextetBounds(x, y, z);
      FourSymbols(SextetA(x), SextetB(x, y), SextetC(y, z), SextetD(z), Encode(bytes[3..]));
      RoundTrip(bytes[3..]);
      var rest := Sextets(Encode(bytes[3..]));
      var all: seq<Sextet> := [SextetA(x), SextetB(x, y), SextetC(y, z), SextetD(z)] + rest;
      assert all[4..] == rest;
      BitsComeBack(x, y, z);
      assert bytes == [x, y, z] + bytes[3..];
    }
  }

  lemma Nothing()
    ensures Sextets("") == []
  {
  }

  /** Texts of section 10 of RFC 4648. */
  lemma KnownTexts()
    ensures Encode([102]) == "Zg==" && Encode([102, 111]) == "Zm8=" && Encode([102, 111, 111]) == "Zm9v"
    ensures Encode([102, 111, 111, 98, 97, 114]) == "Zm9vYmFy"
  {
    hide Decode, Join, Sextets, SymbolValue;
    assert [102, 111, 111, 98, 97, 114][3..] == [98, 97, 114];
    assert [102, 111, 111][3..] == [98, 97, 114][3..] == [];
  }

  /** The last two symbols of the alphabet; those of the URL alphabet are read as the same. */
  lemma LastSymbols()
    ensures Encode([251, 255]) == "+/8="
    ensures SymbolValue('-') == SymbolValue('+') == Some(62) && SymbolValue('_') == SymbolValue('/') == Some(63)
  {
    hide Decode, Join, Sextets;
  }
}
