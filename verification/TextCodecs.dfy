/** UTF-8, unpadded base64url and the JSON string syntax the proxy's reasoning envelope uses. */
module TextCodecs {

  type byte = x: int | 0 <= x < 256

  datatype Option<T> = None | Some(value: T)

  // ---- UTF-8 (section 3 of RFC 3629) ---------------------------------------------------------

  function EncodeChar(c: char): seq<byte> {
    var n := c as int;
    if n < 0x80 then [n]
    else if n < 0x800 then [0xC0 + n / 64, 0x80 + n % 64]
    else if n < 0x10000 then [0xE0 + n / 4096, 0x80 + n / 64 % 64, 0x80 + n % 64]
    else [0xF0 + n / 262144, 0x80 + n / 4096 % 64, 0x80 + n / 64 % 64, 0x80 + n % 64]
  }

  function Utf8(s: string): seq<byte> {
    if s == "" then [] else EncodeChar(s[0]) + Utf8(s[1..])
  }

  /** The first character of `b` and what follows it; None when `b` does not start with one. */
  function DecodeChar(b: seq<byte>): Option<(char, seq<byte>)>
    requires |b| > 0
  {
    var size := Announced(b[0]);
    if |b| < size then None else
      var n := CodePoint(b[..size]);
      if (0 <= n < 0xD800 || 0xE000 <= n < 0x110000) && EncodeChar(n as char) == b[..size]
      then Some((n as char, b[size..])) else None
  }

  function FromUtf8(b: seq<byte>): (r: Option<string>)
    decreases |b|
  {
    if b == [] then Some("") else
      match DecodeChar(b)
      case None => None
      case Some((c, rest)) =>
        if |rest| >= |b| then None else
          match FromUtf8(rest)
          case None => None
          case Some(s) => Some([c] + s)
  }

  /** The size of the encoding its first byte announces. */
  function Announced(lead: byte): nat {
    if lead < 0x80 then 1 else if lead < 0xE0 then 2 else if lead < 0xF0 then 3 else 4
  }

  /** The code point a well formed encoding of `Announced` size stands for. */
  function CodePoint(e: seq<byte>): int
    requires |e| > 0 && |e| == Announced(e[0])
  {
    var lead := e[0];
    if |e| == 1 then lead
    else if |e| == 2 then (lead - 0xC0) * 64 + Tail(e[1])
    else if |e| == 3 then (lead - 0xE0) * 4096 + Tail(e[1]) * 64 + Tail(e[2])
    else (lead - 0xF0) * 262144 + Tail(e[1]) * 4096 + Tail(e[2]) * 64 + Tail(e[3])
  }

  function Tail(b: byte): int {
    b - 0x80
  }

  lemma CodePointOfChar(c: char)
    ensures var e := EncodeChar(c); |e| > 0 && |e| == Announced(e[0]) && CodePoint(e) == c as int
  {
    var n := c as int;
    assert n == n / 64 * 64 + n % 64;
    assert n / 64 == n / 4096 * 64 + n / 64 % 64;
    assert n / 4096 == n / 262144 * 64 + n / 4096 % 64;
  }

  lemma DecodeEncodedChar(c: char, rest: seq<byte>)
    ensures EncodeChar(c) + rest != []
    ensures DecodeChar(EncodeChar(c) + rest) == Some((c, rest))
  {
    var e := EncodeChar(c);
    var b := e + rest;
    CodePointOfChar(c);
    assert b[0] == e[0];
    assert b[..|e|] == e && b[|e|..] == rest;
  }

  lemma {:induction false} Utf8RoundTrip(s: string)
    ensures FromUtf8(Utf8(s)) == Some(s)
  {
    if s != "" {
      DecodeEncodedChar(s[0], Utf8(s[1..]));
      Utf8RoundTrip(s[1..]);
      assert |EncodeChar(s[0])| > 0;
      assert [s[0]] + s[1..] == s;
    }
  }

  // ---- base64url without padding (sections 3.2 and 5 of RFC 4648) --------------------------------

  predicate IsSymbol(c: char) {
    'A' <= c <= 'Z' || 'a' <= c <= 'z' || '0' <= c <= '9' || c == '-' || c == '_'
  }

  function Symbol(digit: int): (c: char)
    requires 0 <= digit < 64
    ensures IsSymbol(c)
  {
    if digit < 26 then ('A' as int + digit) as char
    else if digit < 52 then ('a' as int + digit - 26) as char
    else if digit < 62 then ('0' as int + digit - 52) as char
    else if digit == 62 then '-' else '_'
  }

  /** Python's altchars decoding takes the standard symbols '+' and '/' as well. */
  function Digit(c: char): int {
    if 'A' <= c <= 'Z' then c as int - 'A' as int
    else if 'a' <= c <= 'z' then c as int - 'a' as int + 26
    else if '0' <= c <= '9' then c as int - '0' as int + 52
    else if c == '-' || c == '+' then 62
    else if c == '_' || c == '/' then 63
    else -1
  }

  function Join(c0: char, c1: char, c2: char, c3: char): int {
    Digit(c0) * 262144 + Digit(c1) * 4096 + Digit(c2) * 64 + Digit(c3)
  }

  /** Three bytes as four symbols. */
  function Group(x: byte, y: byte, z: byte): (s: string)
    ensures |s| == 4 && forall c | c in s :: IsSymbol(c)
    ensures Ungroup(s[0], s[1], s[2], s[3]) == [x, y, z]
  {
    var n := x * 65536 + y * 256 + z;
    GroupRoundTrip(x, y, z);
    [Symbol(n / 262144), Symbol(n / 4096 % 64), Symbol(n / 64 % 64), Symbol(n % 64)]
  }

  function Ungroup(c0: char, c1: char, c2: char, c3: char): (b: seq<byte>)
    ensures |b| == 3
  {
    var n := Join(c0, c1, c2, c3);
    [n / 65536 % 256, n / 256 % 256, n % 256]
  }

  function Base64(b: seq<byte>): string {
    if |b| == 0 then ""
    else if |b| == 1 then Group(b[0], 0, 0)[..2]
    else if |b| == 2 then Group(b[0], b[1], 0)[..3]
    else Group(b[0], b[1], b[2]) + Base64(b[3..])
  }

  predicate Known(s: string) {
    forall i | 0 <= i < |s| :: Digit(s[i]) >= 0
  }

  /** Lenient as Python's decoder is: the surplus bits of a last partial group are dropped. */
  function FromBase64(s: string): Option<seq<byte>> {
    if !Known(s) then None
    else if |s| == 0 then Some([])
    else if |s| == 1 then None
    else if |s| == 2 then Some(Ungroup(s[0], s[1], 'A', 'A')[..1])
    else if |s| == 3 then Some(Ungroup(s[0], s[1], s[2], 'A')[..2])
    else
      match FromBase64(s[4..])
      case None => None
      case Some(rest) => Some(Ungroup(s[0], s[1], s[2], s[3]) + rest)
  }

  lemma {:induction false} Base64Shape(b: seq<byte>)
    ensures |Base64(b)| == (4 * |b| + 2) / 3
    ensures forall c | c in Base64(b) :: IsSymbol(c)
  {
    if |b| >= 3 {
      Base64Shape(b[3..]);
    }
  }

  lemma DigitOfSymbol(digit: int)
    requires 0 <= digit < 64
    ensures Digit(Symbol(digit)) == digit
  {
  }

  /** Four base-64 digits put a number below 2^24 together again. */
  lemma Digits(n: int)
    requires 0 <= n < 0x1000000
    ensures 0 <= n / 262144 < 64
    ensures n == n / 262144 * 262144 + n / 4096 % 64 * 4096 + n / 64 % 64 * 64 + n % 64
  {
    var m := n / 64;
    assert n == m * 64 + n % 64;
    var k := n / 4096;
    assert m == k * 64 + m % 64;
    assert k == n / 262144 * 64 + k % 64;
  }

  lemma Bytes(n: int, x: byte, y: byte, z: byte)
    requires n == x * 65536 + y * 256 + z
    ensures n / 65536 % 256 == x && n / 256 % 256 == y && n % 256 == z
  {
    assert n / 256 == x * 256 + y;
    assert n / 65536 == x;
  }

  lemma SymbolsKnown(s: string)
    requires forall c | c in s :: IsSymbol(c)
    ensures Known(s)
  {
    forall i | 0 <= i < |s| ensures Digit(s[i]) >= 0 { assert s[i] in s; }
  }

  lemma TimesSixtyFour(k: int)
    ensures k * 64 % 64 == 0 && k * 64 / 64 == k
  {
  }

  /** The digits a partial group leaves out are all zero. */
  lemma PartialDigits(x: byte, y: byte)
    ensures (x * 65536 + y * 256) % 64 == 0
    ensures y == 0 ==> (x * 65536 + y * 256) / 64 % 64 == 0
  {
    TimesSixtyFour(x * 1024 + y * 4);
    TimesSixtyFour(x * 16);
  }

  lemma JoinSymbols(d0: int, d1: int, d2: int, d3: int)
    requires 0 <= d0 < 64 && 0 <= d1 < 64 && 0 <= d2 < 64 && 0 <= d3 < 64
    ensures Join(Symbol(d0), Symbol(d1), Symbol(d2), Symbol(d3)) == d0 * 262144 + d1 * 4096 + d2 * 64 + d3
  {
    DigitOfSymbol(d0);
    DigitOfSymbol(d1);
    DigitOfSymbol(d2);
    DigitOfSymbol(d3);
  }

  lemma JoinDigits(n: int)
    requires 0 <= n < 0x1000000
    ensures 0 <= n / 262144 < 64
    ensures Join(Symbol(n / 262144), Symbol(n / 4096 % 64), Symbol(n / 64 % 64), Symbol(n % 64)) == n
  {
    Digits(n);
    JoinSymbols(n / 262144, n / 4096 % 64, n / 64 % 64, n % 64);
  }

  lemma UngroupJoined(c0: char, c1: char, c2: char, c3: char, x: byte, y: byte, z: byte)
    requires Join(c0, c1, c2, c3) == x * 65536 + y * 256 + z
    ensures Ungroup(c0, c1, c2, c3) == [x, y, z]
  {
    Bytes(Join(c0, c1, c2, c3), x, y, z);
  }

  lemma GroupRoundTrip(x: byte, y: byte, z: byte)
    ensures var n := x * 65536 + y * 256 + z;
            && 0 <= n < 0x1000000 && 0 <= n / 262144 < 64
            && Ungroup(Symbol(n / 262144), Symbol(n / 4096 % 64), Symbol(n / 64 % 64), Symbol(n % 64)) == [x, y, z]
  {
    var n := x * 65536 + y * 256 + z;
    JoinDigits(n);
    UngroupJoined(Symbol(n / 262144), Symbol(n / 4096 % 64), Symbol(n / 64 % 64), Symbol(n % 64), x, y, z);
  }

  lemma LastByte(x: byte)
    ensures FromBase64(Group(x, 0, 0)[..2]) == Some([x])
  {
    PartialDigits(x, 0);
    var g := Group(x, 0, 0);
    SymbolsKnown(g[..2]);
    assert g == [g[0], g[1], 'A', 'A'];
    assert Ungroup(g[0], g[1], g[2], g[3])[..1] == [x];
  }

  lemma LastTwoBytes(x: byte, y: byte)
    ensures FromBase64(Group(x, y, 0)[..3]) == Some([x, y])
  {
    PartialDigits(x, y);
    var g := Group(x, y, 0);
    SymbolsKnown(g[..3]);
    assert g == [g[0], g[1], g[2], 'A'];
    assert Ungroup(g[0], g[1], g[2], g[3])[..2] == [x, y];
  }

  lemma FirstGroup(x: byte, y: byte, z: byte, s: string, rest: seq<byte>)
    requires FromBase64(s) == Some(rest)
    requires forall c | c in s :: IsSymbol(c)
    ensures FromBase64(Group(x, y, z) + s) == Some([x, y, z] + rest)
  {
    var g := Group(x, y, z);
    var whole := g + s;
    SymbolsKnown(whole);
    assert whole[4..] == s;
    assert whole[0] == g[0] && whole[1] == g[1] && whole[2] == g[2] && whole[3] == g[3];
  }

  lemma {:induction false} Base64RoundTrip(b: seq<byte>)
    ensures FromBase64(Base64(b)) == Some(b)
    decreases |b|, 1
  {
    if |b| >= 3 {
      LongRoundTrip(b);
    } else if |b| == 2 {
      LastTwoBytes(b[0], b[1]);
      assert b == [b[0], b[1]];
    } else if |b| == 1 {
      LastByte(b[0]);
      assert b == [b[0]];
    }
  }

  lemma {:induction false} LongRoundTrip(b: seq<byte>)
    requires |b| >= 3
    ensures FromBase64(Base64(b)) == Some(b)
    decreases |b|, 0
  {
    Base64RoundTrip(b[3..]);
    Base64Shape(b[3..]);
    Regroup(b, Base64(b[3..]));
  }

  lemma Regroup(b: seq<byte>, s: string)
    requires |b| >= 3 && FromBase64(s) == Some(b[3..])
    requires forall c | c in s :: IsSymbol(c)
    ensures FromBase64(Group(b[0], b[1], b[2]) + s) == Some(b)
  {
    FirstGroup(b[0], b[1], b[2], s, b[3..]);
    assert [b[0], b[1], b[2]] + b[3..] == b;
  }

  // ---- JSON strings (section 7 of RFC 8259), as json.dumps prints them with ensure_ascii off -------

  function HexDigit(d: int): char
    requires 0 <= d < 16
  {
    if d < 10 then ('0' as int + d) as char else ('a' as int + d - 10) as char
  }

  function HexValue(c: char): int {
    if '0' <= c <= '9' then c as int - '0' as int
    else if 'a' <= c <= 'f' then c as int - 'a' as int + 10
    else -1
  }

  function EscapeChar(c: char): (s: string)
    ensures |s| > 0
  {
    if c == '\"' then "\\\""
    else if c == '\\' then "\\\\"
    else if c == '\n' then "\\n"
    else if c == '\r' then "\\r"
    else if c == '\t' then "\\t"
    else if c as int == 8 then "\\b"
    else if c as int == 12 then "\\f"
    else if c as int < 32 then "\\u00" + [HexDigit(c as int / 16), HexDigit(c as int % 16)]
    else [c]
  }

  function Escape(s: string): string {
    if s == "" then "" else EscapeChar(s[0]) + Escape(s[1..])
  }

  /** One possibly escaped character, and what follows it. */
  function ScanChar(s: string): (r: Option<(char, string)>)
    ensures r.Some? ==> |r.value.1| < |s|
  {
    if s == "" || s[0] == '\"' || s[0] as int < 32 then None
    else if s[0] != '\\' then Some((s[0], s[1..]))
    else if |s| < 2 then None
    else if s[1] == '\"' || s[1] == '\\' then Some((s[1], s[2..]))
    else if s[1] == 'n' then Some(('\n', s[2..]))
    else if s[1] == 'r' then Some(('\r', s[2..]))
    else if s[1] == 't' then Some(('\t', s[2..]))
    else if s[1] == 'b' then Some((8 as char, s[2..]))
    else if s[1] == 'f' then Some((12 as char, s[2..]))
    else if s[1] == 'u' && |s| >= 6 && s[2] == '0' && s[3] == '0' && HexValue(s[4]) >= 0 && HexValue(s[5]) >= 0
    then Some(((HexValue(s[4]) * 16 + HexValue(s[5])) as char, s[6..]))
    else None
  }

  /** The characters up to the closing quote, and what follows it. */
  function ScanString(s: string): Option<(string, string)> {
    if s == "" then None
    else if s[0] == '\"' then Some(("", s[1..]))
    else
      match ScanChar(s)
      case None => None
      case Some((c, rest)) =>
        match ScanString(rest)
        case None => None
        case Some((more, after)) => Some(([c] + more, after))
  }

  lemma ScanEscapedChar(c: char, rest: string)
    ensures var s := EscapeChar(c) + rest; s != "" && s[0] != '\"' && ScanChar(s) == Some((c, rest))
  {
    var e := EscapeChar(c);
    var s := e + rest;
    assert forall i | 0 <= i < |e| :: s[i] == e[i];
    assert s[|e|..] == rest;
    if c as int < 32 && |e| == 6 {
      assert HexValue(HexDigit(c as int / 16)) == c as int / 16 && HexValue(HexDigit(c as int % 16)) == c as int % 16;
    }
  }

  lemma {:induction false} ScanEscaped(s: string, rest: string)
    ensures ScanString(Escape(s) + "\"" + rest) == Some((s, rest))
  {
    var whole := Escape(s) + "\"" + rest;
    if s == "" {
      assert whole[1..] == rest;
    } else {
      var tail := Escape(s[1..]) + "\"" + rest;
      assert whole == EscapeChar(s[0]) + tail;
      ScanEscapedChar(s[0], tail);
      ScanEscaped(s[1..], rest);
      assert [s[0]] + s[1..] == s;
    }
  }
}
