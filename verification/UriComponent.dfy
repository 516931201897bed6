/** Percent-encoding of UTF-8 as done by encodeURIComponent and decodeURIComponent. */
module UriComponent {
  import opened Prelude

  predicate Unreserved(c: char) {
    'A' <= c <= 'Z' || 'a' <= c <= 'z' || '0' <= c <= '9' || c in "-_.!~*'()"
  }

  function HexDigit(n: nat): (c: char)
    requires n < 16
    ensures HexValue(c) == Some(n) && Unreserved(c)
  {
    if n < 10 then '0' + n as char else 'A' + (n - 10) as char
  }

  function PercentByte(b: byte): string {
    ['%', HexDigit(b as int / 16), HexDigit(b as int % 16)]
  }

  function PercentAll(bytes: seq<byte>): string {
    if bytes == [] then "" else PercentByte(bytes[0]) + PercentAll(bytes[1..])
  }

  function EncodeChar(c: char): string {
    if Unreserved(c) then [c] else PercentAll(Utf8(c))
  }

  function Encode(s: string): string {
    if s == "" then "" else EncodeChar(s[0]) + Encode(s[1..])
  }

  // ----- decoding -----

  function TakeByte(s: string): (r: Option<(int, string)>)
    ensures r.Some? ==> |r.value.1| < |s| && 0 <= r.value.0 < 256
  {
    if |s| < 3 || s[0] != '%' || HexValue(s[1]).None? || HexValue(s[2]).None? then None
    else Some((HexValue(s[1]).value * 16 + HexValue(s[2]).value, s[3..]))
  }

  /** Reads `count` continuation bytes after the bits in `high`. */
  function TakeRest(s: string, count: nat, high: nat): (r: Option<(nat, string)>)
    ensures r.Some? ==> |r.value.1| <= |s|
  {
    if count == 0 then Some((high, s))
    else
      match TakeByte(s)
      case Some((b, rest)) => if 0x80 <= b < 0xC0 then TakeRest(rest, count - 1, high * 64 + b - 0x80) else None
      case None => None
  }

  function Scalar(n: nat, least: nat): Option<char> {
    if n < least || 0xD800 <= n < 0xE000 || n > 0x10FFFF then None else Some(n as char)
  }

  function DecodeOne(s: string): (r: Option<(char, string)>)
    requires s != ""
    ensures r.Some? ==> |r.value.1| < |s|
  {
    if s[0] != '%' then Some((s[0], s[1..]))
    else
      match TakeByte(s)
      case None => None
      case Some((b, rest)) =>
        var (count, high, least) :=
          if b < 0x80 then (0, b, 0)
          else if 0xC0 <= b < 0xE0 then (1, b - 0xC0, 0x80)
          else if 0xE0 <= b < 0xF0 then (2, b - 0xE0, 0x800)
          else if 0xF0 <= b < 0xF8 then (3, b - 0xF0, 0x10000)
          else (0, 0x110000, 0);
        match TakeRest(rest, count, high)
        case None => None
        case Some((n, rest')) =>
          match Scalar(n, least)
          case None => None
          case Some(c) => Some((c, rest'))
  }

  function Decode(s: string): Option<string>
    decreases |s|
  {
    if s == "" then Some("")
    else
      match DecodeOne(s)
      case None => None
      case Some((c, rest)) =>
        match Decode(rest)
        case None => None
        case Some(t) => Some([c] + t)
  }

  lemma TakePercent(b: byte, rest: string)
    ensures TakeByte(PercentByte(b) + rest) == Some((b as int, rest))
  {
    assert (PercentByte(b) + rest)[3..] == rest;
  }

  lemma TakeMore(b: byte, rest: string, count: nat, high: nat)
    requires count > 0 && 0x80 <= b < 0xC0
    ensures TakeRest(PercentByte(b) + rest, count, high) == TakeRest(rest, count - 1, high * 64 + b as int - 0x80)
  {
    TakePercent(b, rest);
  }

  lemma PercentPrefix(bytes: seq<byte>, rest: string)
    requires bytes != []
    ensures PercentAll(bytes) + rest == PercentByte(bytes[0]) + (PercentAll(bytes[1..]) + rest)
  {
  }

  lemma TakeNext(bytes: seq<byte>, rest: string, high: nat)
    requires bytes != [] && 0x80 <= bytes[0] < 0xC0
    ensures TakeRest(PercentAll(bytes) + rest, |bytes|, high)
         == TakeRest(PercentAll(bytes[1..]) + rest, |bytes| - 1, high * 64 + bytes[0] as int - 0x80)
  {
    PercentPrefix(bytes, rest);
    TakeMore(bytes[0], PercentAll(bytes[1..]) + rest, |bytes|, high);
  }

  lemma {:induction false} TakeContinuation(bytes: seq<byte>, rest: string, high: nat)
    requires forall i :: 0 <= i < |bytes| ==> 0x80 <= bytes[i] < 0xC0
    ensures TakeRest(PercentAll(bytes) + rest, |bytes|, high) == Some((Append(high, bytes), rest))
    decreases |bytes|
  {
    if bytes == [] {
      assert PercentAll(bytes) + rest == rest;
    } else {
      var tail, high' := bytes[1..], high * 64 + bytes[0] as int - 0x80;
      TakeNext(bytes, rest, high);
      assert forall i :: 0 <= i < |tail| ==> tail[i] == bytes[i + 1];
      TakeContinuation(tail, rest, high');
    }
  }

  /** The number whose bits are those of `high` followed by those of the continuation bytes. */
  function Append(high: nat, bytes: seq<byte>): nat
    requires forall i :: 0 <= i < |bytes| ==> 0x80 <= bytes[i] < 0xC0
    decreases |bytes|
  {
    if bytes == [] then high else Append(high * 64 + bytes[0] as int - 0x80, bytes[1..])
  }

  /** The marker in the first of `count` bytes. */
  function Marker(count: nat): nat {
    if count == 1 then 0 else if count == 2 then 0xC0 else if count == 3 then 0xE0 else 0xF0
  }

  lemma AppendTwo(high: nat, a: byte, b: byte)
    requires 0x80 <= a < 0xC0 && 0x80 <= b < 0xC0
    ensures Append(high, [a, b]) == high * 4096 + (a as int - 0x80) * 64 + b as int - 0x80
  {
    assert [a, b][1..] == [b] && [b][1..] == [];
    var h1 := high * 64 + a as int - 0x80;
    assert Append(h1, [b]) == h1 * 64 + b as int - 0x80;
  }

  lemma AppendThree(high: nat, a: byte, b: byte, c: byte)
    requires 0x80 <= a < 0xC0 && 0x80 <= b < 0xC0 && 0x80 <= c < 0xC0
    ensures Append(high, [a, b, c])
         == high * 262144 + (a as int - 0x80) * 4096 + (b as int - 0x80) * 64 + c as int - 0x80
  {
    assert [a, b, c][1..] == [b, c];
    AppendTwo(high * 64 + a as int - 0x80, b, c);
  }

  /** Base 64. */
  lemma Digits(n: nat)
    ensures n == n / 64 * 64 + n % 64
    ensures n == n / 4096 * 4096 + n / 64 % 64 * 64 + n % 64
    ensures n == n / 262144 * 262144 + n / 4096 % 64 * 4096 + n / 64 % 64 * 64 + n % 64
  {
    var a := n / 64;
    assert n / 4096 == a / 64;
    assert n / 262144 == a / 64 / 64;
  }

  lemma Utf8Bits(c: char)
    ensures
      var u := Utf8(c);
      && (forall i :: 0 <= i < |u[1..]| ==> 0x80 <= u[1..][i] < 0xC0)
      && u[0] as int >= Marker(|u|)
      && Append(u[0] as int - Marker(|u|), u[1..]) == c as int
  {
    var n: nat, u := c as int, Utf8(c);
    Digits(n);
    if |u| == 2 {
      assert u[1..] == [u[1]];
    } else if |u| == 3 {
      assert u[1..] == [u[1], u[2]];
      AppendTwo(n / 4096, u[1], u[2]);
    } else if |u| == 4 {
      assert u[1..] == [u[1], u[2], u[3]];
      AppendThree(n / 262144, u[1], u[2], u[3]);
    }
  }

  /** One decoding step, with the lead byte already read. */
  lemma DecodeOneSteps(s: string, c: char, rest: string, more: string)
    requires s != "" && s[0] == '%' && TakeByte(s) == Some((Utf8(c)[0] as int, more))
    requires
      var u := Utf8(c);
      u[0] as int >= Marker(|u|) && TakeRest(more, |u| - 1, u[0] as int - Marker(|u|)) == Some((c as int, rest))
    ensures DecodeOne(s) == Some((c, rest))
  {
  }

  lemma DecodeOneEncoded(c: char, rest: string)
    ensures DecodeOne(EncodeChar(c) + rest) == Some((c, rest))
  {
    if Unreserved(c) {
      assert (EncodeChar(c) + rest)[1..] == rest;
    } else {
      var u := Utf8(c);
      var more := PercentAll(u[1..]) + rest;
      Utf8Bits(c);
      assert EncodeChar(c) + rest == PercentByte(u[0]) + more by {
        PercentPrefix(u, rest);
      }
      TakePercent(u[0], more);
      TakeContinuation(u[1..], rest, u[0] as int - Marker(|u|));
      DecodeOneSteps(PercentByte(u[0]) + more, c, rest, more);
    }
  }

  lemma {:induction false} DecodeEncode(s: string)
    ensures Decode(Encode(s)) == Some(s)
  {
    if s != "" {
      DecodeOneEncoded(s[0], Encode(s[1..]));
      DecodeEncode(s[1..]);
      assert Encode(s) != "" && [s[0]] + s[1..] == s;
    }
  }

  lemma {:induction false} PercentIsPlain(bytes: seq<byte>)
    ensures forall c :: c in PercentAll(bytes) ==> Unreserved(c) || c == '%'
  {
    if bytes != [] {
      PercentIsPlain(bytes[1..]);
    }
  }

  /** An encoded value holds no separator of a cookie header: no ';', no '=', no space. */
  lemma {:induction false} EncodedIsPlain(s: string)
    ensures forall c :: c in Encode(s) ==> Unreserved(c) || c == '%'
  {
    if s != "" {
      PercentIsPlain(Utf8(s[0]));
      EncodedIsPlain(s[1..]);
    }
  }
}
