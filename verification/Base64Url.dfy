/** The URL-safe base64 encoding without padding (section 5 of RFC 4648), and its lenient decoder. */
module Base64Url {

  type Byte = b: int | 0 <= b < 256
  type Sextet = x: int | 0 <= x < 64

  function Char(x: Sextet): char {
    if x < 26 then 'A' + x as char
    else if x < 52 then 'a' + (x - 26) as char
    else if x < 62 then '0' + (x - 52) as char
    else if x == 62 then '-' else '_'
  }

  /** The decoder takes either alphabet and passes over every other character. */
  function Value(c: char): (r: int)
    ensures -1 <= r < 64
  {
    if 'A' <= c <= 'Z' then c as int - 'A' as int
    else if 'a' <= c <= 'z' then c as int - 'a' as int + 26
    else if '0' <= c <= '9' then c as int - '0' as int + 52
    else if c == '-' || c == '+' then 62
    else if c == '_' || c == '/' then 63
    else -1
  }

  function Sextets(bytes: seq<Byte>): seq<Sextet>
    decreases |bytes|
  {
    if |bytes| == 0 then []
    else if |bytes| == 1 then [bytes[0] / 4, bytes[0] % 4 * 16]
    else if |bytes| == 2 then [bytes[0] / 4, bytes[0] % 4 * 16 + bytes[1] / 16, bytes[1] % 16 * 4]
    else [bytes[0] / 4, bytes[0] % 4 * 16 + bytes[1] / 16, bytes[1] % 16 * 4 + bytes[2] / 64, bytes[2] % 64] + Sextets(bytes[3..])
  }

  /** The low bits of one sextet followed by the high bits of the next. */
  function Join(x: int, y: int, bits: int): Byte
    requires 0 <= x < 64 && 0 <= y < 64 && (bits == 16 || bits == 4 || bits == 1)
  {
    if bits == 16 then x * 4 + y / 16 else if bits == 4 then x % 16 * 16 + y / 4 else x % 4 * 64 + y
  }

  function Bytes(xs: seq<Sextet>): seq<Byte>
    decreases |xs|
  {
    if |xs| < 2 then []
    else if |xs| == 2 then [Join(xs[0], xs[1], 16)]
    else if |xs| == 3 then [Join(xs[0], xs[1], 16), Join(xs[1], xs[2], 4)]
    else [Join(xs[0], xs[1], 16), Join(xs[1], xs[2], 4), Join(xs[2], xs[3], 1)] + Bytes(xs[4..])
  }

  function Chars(xs: seq<Sextet>): (s: string)
    ensures |s| == |xs| && forall i | 0 <= i < |s| :: s[i] == Char(xs[i])
  {
    seq(|xs|, i requires 0 <= i < |xs| => Char(xs[i]))
  }

  function Values(s: string): seq<Sextet> {
    if s == [] || s[0] == '=' then []
    else if Value(s[0]) < 0 then Values(s[1..])
    else [Value(s[0])] + Values(s[1..])
  }

  function Encode(bytes: seq<Byte>): string { Chars(Sextets(bytes)) }

  function Decode(s: string): seq<Byte> { Bytes(Values(s)) }

  lemma {:induction false} SextetsRoundTrip(bytes: seq<Byte>)
    ensures Bytes(Sextets(bytes)) == bytes
    decreases |bytes|
  {
    if |bytes| >= 3 {
      SextetsRoundTrip(bytes[3..]);
      var xs := Sextets(bytes);
      assert xs[4..] == Sextets(bytes[3..]);
      assert bytes == bytes[..3] + bytes[3..];
    }
  }

  lemma {:induction false} CharsRoundTrip(xs: seq<Sextet>)
    ensures Values(Chars(xs)) == xs
  {
    if xs != [] {
      CharsRoundTrip(xs[1..]);
      assert Chars(xs)[1..] == Chars(xs[1..]);
    }
  }

  lemma RoundTrip(bytes: seq<Byte>)
    ensures Decode(Encode(bytes)) == bytes
  {
    CharsRoundTrip(Sextets(bytes));
    SextetsRoundTrip(bytes);
  }

  lemma NoDots(bytes: seq<Byte>)
    ensures '.' !in Encode(bytes) && (bytes != [] ==> Encode(bytes) != "")
  {}
}
