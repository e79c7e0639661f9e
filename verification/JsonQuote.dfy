/** Quoting a string as JSON text (section 7 of RFC 8259), over UTF-16 code units as the
    JavaScript serializer does it: lone surrogates are escaped, surrogate pairs are not. */
module JsonQuote {

  type Unit = u: int | 0 <= u < 0x10000
  type Text = seq<Unit>

  const QUOTE: Unit := 34
  const BACKSLASH: Unit := 92

  function Units(s: string): Text {
    seq(|s|, i requires 0 <= i < |s| => (s[i] as int) % 0x10000)
  }

  predicate High(u: Unit) { 0xD800 <= u < 0xDC00 }

  predicate Low(u: Unit) { 0xDC00 <= u < 0xE000 }

  function HexDigit(n: int): Unit
    requires 0 <= n < 16
  {
    if n < 10 then 48 + n else 87 + n
  }

  function Escape(u: Unit): Text {
    if u == QUOTE || u == BACKSLASH then [BACKSLASH, u]
    else if u == 8 then [BACKSLASH, 98]
    else if u == 9 then [BACKSLASH, 116]
    else if u == 10 then [BACKSLASH, 110]
    else if u == 12 then [BACKSLASH, 102]
    else if u == 13 then [BACKSLASH, 114]
    else if u < 32 || High(u) || Low(u) then
      [BACKSLASH, 117, HexDigit(u / 16 / 16 / 16), HexDigit(u / 16 / 16 % 16), HexDigit(u / 16 % 16), HexDigit(u % 16)]
    else [u]
  }

  /** How many code units the next piece of output stands for. */
  function Taken(s: Text): nat
    requires s != []
  {
    if High(s[0]) && |s| > 1 && Low(s[1]) then 2 else 1
  }

  function Piece(s: Text): Text
    requires s != []
  {
    if Taken(s) == 2 then s[..2] else Escape(s[0])
  }

  function Body(s: Text): Text {
    if s == [] then [] else Piece(s) + Body(s[Taken(s)..])
  }

  function Quote(s: Text): Text {
    [QUOTE] + Body(s) + [QUOTE]
  }

  lemma HexDigitIsInjective(m: int, n: int)
    requires 0 <= m < 16 && 0 <= n < 16 && HexDigit(m) == HexDigit(n)
    ensures m == n
  {}

  lemma HexIsInjective(u: Unit, v: Unit)
    requires HexDigit(u / 16 / 16 / 16) == HexDigit(v / 16 / 16 / 16) && HexDigit(u / 16 / 16 % 16) == HexDigit(v / 16 / 16 % 16)
    requires HexDigit(u / 16 % 16) == HexDigit(v / 16 % 16) && HexDigit(u % 16) == HexDigit(v % 16)
    ensures u == v
  {
    HexDigitIsInjective(u / 16 / 16 / 16, v / 16 / 16 / 16);
    HexDigitIsInjective(u / 16 / 16 % 16, v / 16 / 16 % 16);
    assert u / 16 / 16 == v / 16 / 16;
    HexDigitIsInjective(u / 16 % 16, v / 16 % 16);
    assert u / 16 == v / 16;
    HexDigitIsInjective(u % 16, v % 16);
  }

  lemma EscapeIsPrefixFree(u: Unit, v: Unit, x: Text, y: Text)
    requires Escape(u) + x == Escape(v) + y
    ensures u == v && x == y
  {
    var whole := Escape(u) + x;
    assert whole[0] == Escape(u)[0] == Escape(v)[0];
    if whole[0] == BACKSLASH {
      assert whole[1] == Escape(u)[1] == Escape(v)[1];
      if whole[1] == 117 {
        assert whole[2] == Escape(u)[2] == Escape(v)[2] && whole[3] == Escape(u)[3] == Escape(v)[3];
        assert whole[4] == Escape(u)[4] == Escape(v)[4] && whole[5] == Escape(u)[5] == Escape(v)[5];
        HexIsInjective(u, v);
      }
    }
    assert Escape(u) == Escape(v);
    assert x == whole[|Escape(u)|..] == y;
  }

  lemma PieceIsPrefixFree(a: Text, b: Text, x: Text, y: Text)
    requires a != [] && b != [] && Piece(a) + x == Piece(b) + y
    ensures Taken(a) == Taken(b) && a[..Taken(a)] == b[..Taken(b)] && x == y
  {
    var whole := Piece(a) + x;
    assert whole[0] == Piece(a)[0] == Piece(b)[0];
    if Taken(a) == 1 && Taken(b) == 1 {
      EscapeIsPrefixFree(a[0], b[0], x, y);
    } else {
      assert High(whole[0]);
      assert whole[1] == Piece(a)[1] == Piece(b)[1];
      assert x == whole[2..] == y;
    }
  }

  lemma PieceNeverStartsWithQuote(s: Text)
    requires s != []
    ensures Piece(s) != [] && Piece(s)[0] != QUOTE
  {}

  /** The quoted rest of a string, its closing quote, and whatever follows. */
  function Closed(a: Text, x: Text): Text {
    Body(a) + [QUOTE] + x
  }

  lemma ClosedUnfolds(a: Text, x: Text)
    requires a != []
    ensures Closed(a, x) == Piece(a) + Closed(a[Taken(a)..], x)
  {}

  lemma ClosedStart(a: Text, x: Text)
    ensures Closed(a, x) != [] && (Closed(a, x)[0] == QUOTE <==> a == [])
  {
    if a != [] {
      PieceNeverStartsWithQuote(a);
      assert Closed(a, x)[0] == Piece(a)[0];
    }
  }

  lemma {:induction false} BodyIsPrefixFree(a: Text, b: Text, x: Text, y: Text)
    requires Closed(a, x) == Closed(b, y)
    ensures a == b && x == y
    decreases |a|
  {
    var whole := Closed(a, x);
    ClosedStart(a, x);
    ClosedStart(b, y);
    if a == [] {
      assert x == whole[1..] == y;
    } else {
      var m, n := Taken(a), Taken(b);
      ClosedUnfolds(a, x);
      ClosedUnfolds(b, y);
      PieceIsPrefixFree(a, b, Closed(a[m..], x), Closed(b[n..], y));
      BodyIsPrefixFree(a[m..], b[n..], x, y);
      assert a == a[..m] + a[m..] && b == b[..n] + b[n..];
    }
  }

  /** No quoted string is the beginning of another one, whatever follows either. */
  lemma QuoteIsPrefixFree(a: Text, b: Text, x: Text, y: Text)
    requires Quote(a) + x == Quote(b) + y
    ensures a == b && x == y
  {
    var whole := Quote(a) + x;
    assert whole[1..] == Closed(a, x);
    assert whole[1..] == Closed(b, y);
    BodyIsPrefixFree(a, b, x, y);
  }
}
