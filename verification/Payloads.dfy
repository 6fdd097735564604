/** From a submitted document to the hashed bytes: canonical text, its UTF-8 encoding, and the fingerprint's stream. */
module Payloads {
  import opened CanonicalJson
  import opened Fingerprints

  function Utf8(c: char): Bytes {
    var n := c as int;
    if n < 0x80 then [n]
    else if n < 0x800 then [0xC0 + n / 64, 0x80 + n % 64]
    else if n < 0x10000 then [0xE0 + n / 64 / 64, 0x80 + n / 64 % 64, 0x80 + n % 64]
    else [0xF0 + n / 64 / 64 / 64, 0x80 + n / 64 / 64 % 64, 0x80 + n / 64 % 64, 0x80 + n % 64]
  }

  function Encode(text: string): Bytes {
    if text == "" then [] else Utf8(text[0]) + Encode(text[1..])
  }

  lemma SixBits(m: nat, n: nat)
    requires m / 64 == n / 64 && m % 64 == n % 64
    ensures m == n
  {
  }

  lemma Utf8IsInjective(c: char, d: char)
    requires Utf8(c) == Utf8(d)
    ensures c == d
  {
    var m, n := c as int, d as int;
    assert Utf8(c)[0] == Utf8(d)[0];
    if |Utf8(c)| == 2 {
      SixBits(m, n);
    } else if |Utf8(c)| == 3 {
      SixBits(m / 64, n / 64);
      SixBits(m, n);
    } else if |Utf8(c)| == 4 {
      SixBits(m / 64 / 64, n / 64 / 64);
      SixBits(m / 64, n / 64);
      SixBits(m, n);
    }
  }

  /** The first byte tells how long the character's encoding is. */
  lemma FirstByteTellsLength(c: char, d: char)
    requires Utf8(c)[0] == Utf8(d)[0]
    ensures |Utf8(c)| == |Utf8(d)|
  {
    assert |Utf8(c)| == if Utf8(c)[0] < 0x80 then 1 else if Utf8(c)[0] < 0xE0 then 2 else if Utf8(c)[0] < 0xF0 then 3 else 4;
    assert |Utf8(d)| == if Utf8(d)[0] < 0x80 then 1 else if Utf8(d)[0] < 0xE0 then 2 else if Utf8(d)[0] < 0xF0 then 3 else 4;
  }

  lemma CharPrefix(c: char, d: char, x: Bytes, y: Bytes)
    requires Utf8(c) + x == Utf8(d) + y
    ensures c == d && x == y
  {
    assert (Utf8(c) + x)[0] == (Utf8(d) + y)[0];
    FirstByteTellsLength(c, d);
    var k := |Utf8(c)|;
    assert Utf8(c) == (Utf8(c) + x)[..k] && Utf8(d) == (Utf8(d) + y)[..k];
    assert x == (Utf8(c) + x)[k..] && y == (Utf8(d) + y)[k..];
    Utf8IsInjective(c, d);
  }

  lemma {:induction false} EncodeIsInjective(a: string, b: string)
    requires Encode(a) == Encode(b)
    ensures a == b
  {
    if a != "" && b != "" {
      CharPrefix(a[0], b[0], Encode(a[1..]), Encode(b[1..]));
      EncodeIsInjective(a[1..], b[1..]);
      assert a == [a[0]] + a[1..] && b == [b[0]] + b[1..];
    }
  }

  /** The request's payload is the encoded canonical text of the document. */
  ghost predicate Carries(n: Request, v: Json) {
    Decoded(v) && Encodable(n) && n.payload == Encode(Print(v))
  }

  /**
   Two submissions hash the same bytes exactly if they mean the same: equal documents, whatever the spelling
   of their JSON, and equal remaining fields.
   */
  lemma SameStreamSameMeaning(x: Request, v: Json, y: Request, w: Json)
    requires Carries(x, v) && Carries(y, w)
    ensures Stream(x) == Stream(y) <==> v == w && x.(payload := []) == y.(payload := [])
  {
    if Stream(x) == Stream(y) {
      StreamIsInjective(x, y);
      EncodeIsInjective(Print(v), Print(w));
      CanonicalIsInjective(v, w);
    }
    if x.(payload := []) == y.(payload := []) {
      assert x.(payload := []).(payload := x.payload) == x && y.(payload := []).(payload := y.payload) == y;
    }
  }
}
