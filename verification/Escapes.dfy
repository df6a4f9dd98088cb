/** String escapes: the JSON string writer, the Jsonnet quoter, and the reader that undoes both. */
module Escapes {
  import opened Options
  import opened Text

  // ---------------------------------------------------------------- hexadecimal digits

  /** Value of a hexadecimal digit, either case. */
  function Digit(c: char): (d: Option<nat>)
    ensures d.Some? ==> d.value < 16
  {
    if '0' <= c <= '9' then Some(c as int - '0' as int)
    else if 'a' <= c <= 'f' then Some(c as int - 'a' as int + 10)
    else if 'A' <= c <= 'F' then Some(c as int - 'A' as int + 10)
    else None
  }

  function HexDigit(n: nat): (c: char)
    requires n < 16
    ensures Digit(c) == Some(n)
  {
    if n < 10 then (n + '0' as int) as char else (n - 10 + 'a' as int) as char
  }

  /** Value of a string of hexadecimal digits, most significant first, `shift` apiece. */
  function Value(s: string, base: nat): Option<nat> {
    if s == [] then Some(0)
    else
      var hi, lo := Value(s[..|s| - 1], base), Digit(s[|s| - 1]);
      if hi.None? || lo.None? then None else Some(hi.value * base + lo.value)
  }

  lemma Value2(a: char, b: char, base: nat)
    ensures Value([a, b], base) == if Digit(a).None? || Digit(b).None? then None
                                   else Some(Digit(a).value * base + Digit(b).value)
  {
    assert [a, b][..1] == [a] && [a][..0] == [];
    assert Value([], base) == Some(0);
    assert Value([a], base) == Digit(a);
  }

  function Hex4(n: nat): (s: string)
    requires n < 0x10000
    ensures |s| == 4
  {
    [HexDigit(n / 0x1000), HexDigit(n / 0x100 % 16), HexDigit(n / 16 % 16), HexDigit(n % 16)]
  }

  // ---------------------------------------------------------------- writing JSON strings

  /** How the writer escapes a byte: as itself, with a letter, or with its code. */
  datatype Class = Plain | Letter(b: Byte) | Code

  function ClassOf(b: Byte): Class {
    if b == 0x08 then Letter('b' as Byte)
    else if b == 0x09 then Letter('t' as Byte)
    else if b == 0x0A then Letter('n' as Byte)
    else if b == 0x0C then Letter('f' as Byte)
    else if b == 0x0D then Letter('r' as Byte)
    else if b == 0x22 || b == 0x5C then Letter(b)
    else if b < 0x20 then Code
    else Plain
  }

  function EscapeByte(b: Byte): Bytes {
    match ClassOf(b)
    case Plain => [b]
    case Letter(x) => ['\\' as Byte, x]
    case Code =>
      ['\\' as Byte, 'u' as Byte, '0' as Byte, '0' as Byte,
       HexDigit(b as nat / 16) as Byte, HexDigit(b as nat % 16) as Byte]
  }

  function EscapeBytes(s: Bytes): Bytes {
    if s == [] then [] else EscapeByte(s[0]) + EscapeBytes(s[1..])
  }

  lemma Assoc<T>(a: seq<T>, b: seq<T>, c: seq<T>)
    ensures (a + b) + c == a + (b + c)
  {}

  lemma Empty()
    ensures EscapeBytes([]) == []
  {}

  lemma {:induction false} EscapeSnoc(s: Bytes, b: Byte)
    ensures EscapeBytes(s + [b]) == EscapeBytes(s) + EscapeByte(b)
  {
    hide EscapeByte;
    if s == [] {
      assert [b][1..] == [] && s + [b] == [b];
      Empty();
    } else {
      EscapeSnoc(s[1..], b);
      assert (s + [b])[1..] == s[1..] + [b];
      Assoc(EscapeByte(s[0]), EscapeBytes(s[1..]), EscapeByte(b));
    }
  }

  /** The writer copies runs of plain bytes at once; the result is the byte-by-byte map. */
  method EscapeRaw(value: Bytes, buf: Bytes) returns (out: Bytes)
    ensures out == buf + EscapeBytes(value)
  {
    out := buf;
    var start := 0;
    Empty();
    for i := 0 to |value|
      invariant start <= i && out + value[start..i] == buf + EscapeBytes(value[..i])
    {
      hide EscapeByte, EscapeBytes;
      EscapeSnoc(value[..i], value[i]);
      assert value[..i] + [value[i]] == value[..i + 1];
      var byte := value[i];
      ghost var done := buf + EscapeBytes(value[..i]);
      Assoc(buf, EscapeBytes(value[..i]), EscapeByte(byte));
      var escape := ClassOf(byte);
      PlainByte(byte);
      if escape != Plain {
        if start < i { out := out + value[start..i]; }
        start := i + 1;
        assert out == done;
        if escape.Letter? {
          out := out + ['\\' as Byte, escape.b];
        } else {
          out := out + ['\\' as Byte, 'u' as Byte, '0' as Byte, '0' as Byte,
                        HexDigit(byte as nat / 16) as Byte, HexDigit(byte as nat % 16) as Byte];
        }
        assert value[start..i + 1] == [];
      } else {
        assert value[start..i + 1] == value[start..i] + [byte];
        Assoc(out, value[start..i], [byte]);
      }
    }
    assert value[..|value|] == value;
    if start == |value| { return; }
    out := out + value[start..];
  }

  lemma PlainByte(b: Byte)
    ensures EscapeByte(b) == match ClassOf(b)
                             case Plain => [b]
                             case Letter(x) => ['\\' as Byte, x]
                             case Code => ['\\' as Byte, 'u' as Byte, '0' as Byte, '0' as Byte,
                                           HexDigit(b as nat / 16) as Byte, HexDigit(b as nat % 16) as Byte]
  {}

  /** The escape of a character; every character that needs one is a single byte. */
  function EscapeChar(c: char): string {
    if c as int >= 0x80 then [c]
    else
      match ClassOf(c as Byte)
      case Plain => [c]
      case Letter(x) => ['\\', x as char]
      case Code => "\\u" + Hex4(c as nat)
  }

  function EscapeChars(s: string): string {
    if s == [] then [] else EscapeChar(s[0]) + EscapeChars(s[1..])
  }

  lemma {:induction false} EscapeHigh(s: Bytes, t: Bytes)
    requires forall i :: 0 <= i < |s| ==> s[i] >= 0x80
    ensures EscapeBytes(s + t) == s + EscapeBytes(t)
  {
    if s == [] {
      assert s + t == t;
    } else {
      EscapeHigh(s[1..], t);
      assert EscapeByte(s[0]) == [s[0]];
      hide EscapeByte;
      assert (s + t)[1..] == s[1..] + t;
      Assoc([s[0]], s[1..], EscapeBytes(t));
      assert [s[0]] + s[1..] == s;
    }
  }

  lemma EscapeEncoded1(c: char)
    requires c as int < 0x80
    ensures Encode(EscapeChar(c)) == EscapeByte(c as Byte)
  {
    EncodeAscii(EscapeChar(c));
  }

  lemma {:induction false} EncodeAscii(s: string)
    requires forall i :: 0 <= i < |s| ==> s[i] as int < 0x80
    ensures |Encode(s)| == |s| && forall i :: 0 <= i < |s| ==> Encode(s)[i] == s[i] as Byte
  {
    if s != [] { EncodeAscii(s[1..]); }
  }

  /** Escaping the bytes of a text is escaping its characters. */
  lemma {:induction false} EscapeEncoded(s: string)
    ensures EscapeBytes(Encode(s)) == Encode(EscapeChars(s))
  {
    if s != [] {
      var c, rest := s[0], s[1..];
      EscapeEncoded(rest);
      EncodeConcat(EscapeChar(c), EscapeChars(rest));
      if c as int < 0x80 {
        EscapeEncoded1(c);
        assert ([c as Byte] + Encode(rest))[1..] == Encode(rest);
      } else {
        EscapeHigh(Encode1(c), Encode(rest));
      }
    }
  }

  // ---------------------------------------------------------------- reading

  /** The character a text starts with, and how much of the text it takes. */
  function Next(s: string): (r: Option<(char, nat)>)
    requires s != []
    ensures r.Some? ==> 0 < r.value.1 <= |s|
  {
    if s[0] != '\\' then Some((s[0], 1))
    else if |s| < 2 then None
    else
      match s[1]
      case '\\' => Some(('\\', 2))
      case '"' => Some(('"', 2))
      case '\'' => Some(('\'', 2))
      case 'b' => Some((8 as char, 2))
      case 'f' => Some((12 as char, 2))
      case 'n' => Some(('\n', 2))
      case 'r' => Some(('\r', 2))
      case 't' => Some(('\t', 2))
      case 'u' => NextCode(s)
      case 'x' => if |s| < 4 || Value(s[2..4], 256).None? then None else HexPair(s)
      case _ => None
  }

  /** `\x`: the first digit weighs 256, not 16. */
  function HexPair(s: string): Option<(char, nat)>
    requires |s| >= 4 && Value(s[2..4], 256).Some?
  {
    var n := Value(s[2..4], 256).value;
    if n < 0xD800 then Some((n as char, 4)) else None
  }

  /** `\u`: one code, or a surrogate pair. */
  function NextCode(s: string): (r: Option<(char, nat)>)
    requires |s| >= 2
    ensures r.Some? ==> 0 < r.value.1 <= |s|
  {
    if |s| < 6 || Value(s[2..6], 16).None? then None
    else
      var n1 := Value(s[2..6], 16).value;
      if 0xDC00 <= n1 < 0xE000 then None
      else if 0xD800 <= n1 < 0xDC00 then
        if |s| < 12 || s[6] != '\\' || s[7] != 'u' || Value(s[8..12], 16).None? then None
        else
          var n2 := Value(s[8..12], 16).value;
          if 0xDC00 <= n2 < 0xE000 then Some((Pair(n1, n2), 12)) else None
      else if n1 < 0x10000 then Some((n1 as char, 6))
      else None
  }

  function Pair(n1: nat, n2: nat): char
    requires 0xD800 <= n1 < 0xDC00 && 0xDC00 <= n2 < 0xE000
  {
    ((n1 - 0xD800) * 0x400 + (n2 - 0xDC00) + 0x10000) as char
  }

  /** The text that `s` stands for, or None when it is malformed. */
  function Read(s: string): Option<string>
    decreases |s|
  {
    if s == [] then Some([])
    else
      var n := Next(s);
      if n.None? then None
      else
        var r := Read(s[n.value.1..]);
        if r.None? then None else Some([n.value.0] + r.value)
  }

  /** Four digits at `i`, if they are there. */
  method DecodeUnicode(s: string, i: nat) returns (n: Option<nat>)
    requires i <= |s|
    ensures n == if i + 4 <= |s| then Value(s[i..i + 4], 16) else None
  {
    if i + 4 > |s| { return None; }
    var acc := 0;
    var k := 0;
    while k < 4
      invariant k <= 4 && Value(s[i..i + k], 16) == Some(acc)
    {
      assert s[i..i + k + 1][..k] == s[i..i + k] && s[i..i + k + 1][k] == s[i + k];
      var d := Digit(s[i + k]);
      if d.None? {
        Undecodable(s, i, k);
        return None;
      }
      acc, k := acc * 16 + d.value, k + 1;
    }
    return Some(acc);
  }

  lemma {:induction false} Undecodable(s: string, i: nat, k: nat)
    requires k < 4 && i + 4 <= |s| && Digit(s[i + k]).None?
    ensures Value(s[i..i + 4], 16).None?
  {
    ValuePrefix(s[i..i + 4], k);
  }

  lemma {:induction false} ValuePrefix(s: string, k: nat)
    requires k < |s| && Digit(s[k]).None?
    ensures Value(s, 16).None?
  {
    if k < |s| - 1 { ValuePrefix(s[..|s| - 1], k); }
  }

  /** The reader, a character at a time. */
  method Unescape(s: string) returns (r: Option<string>)
    ensures r == Read(s)
  {
    hide Read, Next;
    var out := "";
    var i := 0;
    assert s[0..] == s;
    Joined(s);
    while i < |s|
      invariant i <= |s| && Read(s) == Join(out, Read(s[i..]))
      decreases |s| - i
    {
      ghost var rest := s[i..];
      var n: Option<(char, nat)>;
      if s[i] != '\\' {
        n := Some((s[i], 1));
        PlainNext(rest);
      } else {
        if i + 1 == |s| {
          ReadStep(rest, out);
          return None;
        }
        n := UnescapeOne(s, i);
      }
      ReadStep(rest, out);
      if n.None? { return None; }
      assert rest[n.value.1..] == s[i + n.value.1..];
      out, i := out + [n.value.0], i + n.value.1;
    }
    assert s[i..] == [] && out + [] == out;
    Joined(s);
    return Some(out);
  }

  /** What has been read, before what is still to be read. */
  ghost function Join(out: string, rest: Option<string>): Option<string> {
    if rest.None? then None else Some(out + rest.value)
  }

  lemma Joined(s: string)
    ensures Join("", Read(s)) == Read(s) && Read([]) == Some([])
  {
    if Read(s).Some? { assert "" + Read(s).value == Read(s).value; }
  }

  lemma PlainNext(s: string)
    requires s != [] && s[0] != '\\'
    ensures Next(s) == Some((s[0], 1))
  {}

  /** Reading is reading the first character and then the rest. */
  lemma ReadStep(s: string, out: string)
    requires s != []
    ensures |s| == 1 && s[0] == '\\' ==> Next(s).None?
    ensures Next(s).None? ==> Read(s).None?
    ensures Next(s).Some? ==>
              var (c, n) := Next(s).value;
              n <= |s| && Join(out, Read(s)) == Join(out + [c], Read(s[n..]))
  {
    if Next(s).Some? {
      var (c, n) := Next(s).value;
      if Read(s[n..]).Some? { Assoc(out, [c], Read(s[n..]).value); }
    }
  }

  /** An escape sequence. */
  method UnescapeOne(s: string, i: nat) returns (n: Option<(char, nat)>)
    requires i + 1 < |s| && s[i] == '\\'
    ensures n == Next(s[i..])
  {
    hide Value, Digit, HexPair, NextCode;
    match s[i + 1] {
      case '\\' => n := Some(('\\', 2));
      case '"' => n := Some(('"', 2));
      case '\'' => n := Some(('\'', 2));
      case 'b' => n := Some((8 as char, 2));
      case 'f' => n := Some((12 as char, 2));
      case 'n' => n := Some(('\n', 2));
      case 'r' => n := Some(('\r', 2));
      case 't' => n := Some(('\t', 2));
      case 'u' => n := UnescapeCode(s, i);
      case 'x' => n := UnescapeHex(s, i);
      case _ => n := None;
    }
  }

  method UnescapeCode(s: string, i: nat) returns (r: Option<(char, nat)>)
    requires i + 1 < |s|
    ensures r == NextCode(s[i..])
  {
    hide Value;
    assert i + 6 <= |s| ==> s[i..][2..6] == s[i + 2..i + 6];
    var n1 := DecodeUnicode(s, i + 2);
    if n1.None? { return None; }
    if 0xDC00 <= n1.value <= 0xDFFF { return None; }
    if 0xD800 <= n1.value <= 0xDBFF {
      if i + 6 >= |s| || s[i + 6] != '\\' { return None; }
      if i + 7 >= |s| || s[i + 7] != 'u' { return None; }
      assert i + 12 <= |s| ==> s[i..][8..12] == s[i + 8..i + 12];
      var n2 := DecodeUnicode(s, i + 8);
      if n2.None? { return None; }
      if !(0xDC00 <= n2.value <= 0xDFFF) { return None; }
      return Some((Pair(n1.value, n2.value), 12));
    }
    return if n1.value < 0x10000 then Some((n1.value as char, 6)) else None;
  }

  method UnescapeHex(s: string, i: nat) returns (r: Option<(char, nat)>)
    requires i + 1 < |s| && s[i] == '\\' && s[i + 1] == 'x'
    ensures r == Next(s[i..])
  {
    if i + 4 > |s| { return None; }
    var h, l := Digit(s[i + 2]), Digit(s[i + 3]);
    ghost var t := s[i..][2..4];
    assert t == [s[i + 2], s[i + 3]];
    Value2(s[i + 2], s[i + 3], 256);
    hide Digit, Value;
    if h.None? || l.None? { return None; }
    var n := h.value * 256 + l.value;
    return if n < 0xD800 then Some((n as char, 4)) else None;
  }

  // ---------------------------------------------------------------- round trips

  lemma ReadOne(u: string, c: char, rest: string)
    requires u != [] && Next(u + rest) == Some((c, |u|))
    ensures Read(u + rest) == Join([c], Read(rest))
  {
    assert (u + rest)[|u|..] == rest;
  }

  lemma ValueSnoc(s: string, c: char)
    requires Value(s, 16).Some? && Digit(c).Some?
    ensures Value(s + [c], 16) == Some(Value(s, 16).value * 16 + Digit(c).value)
  {
    assert (s + [c])[..|s|] == s;
  }

  lemma Hex4Value(n: nat)
    requires n < 0x10000
    ensures Value(Hex4(n), 16) == Some(n)
  {
    hide Value;
    var s := Hex4(n);
    assert [s[0], s[1]] + [s[2]] == [s[0], s[1], s[2]] && [s[0], s[1], s[2]] + [s[3]] == s;
    Value2(s[0], s[1], 16);
    ValueSnoc([s[0], s[1]], s[2]);
    ValueSnoc([s[0], s[1], s[2]], s[3]);
    assert n / 0x1000 * 16 + n / 0x100 % 16 == n / 0x100;
    assert n / 0x100 * 16 + n / 16 % 16 == n / 16;
  }

  lemma NextEscape(c: char, rest: string)
    ensures Next(EscapeChar(c) + rest) == Some((c, |EscapeChar(c)|))
  {
    if c as int < 0x80 && ClassOf(c as Byte) == Code {
      Hex4Value(c as nat);
      assert (EscapeChar(c) + rest)[2..6] == Hex4(c as nat);
    }
  }

  /** Reading what the JSON writer wrote gives the text back. */
  lemma {:induction false} JsonRoundTrip(s: string)
    ensures Read(EscapeChars(s)) == Some(s)
  {
    if s != [] {
      JsonRoundTrip(s[1..]);
      NextEscape(s[0], EscapeChars(s[1..]));
      ReadOne(EscapeChar(s[0]), s[0], EscapeChars(s[1..]));
      assert [s[0]] + s[1..] == s;
    }
  }

  function QuoteChar(c: char): string {
    if c == '\\' then "\\\\"
    else if c == '\'' then "\\'"
    else if c == '\n' then "\\n"
    else if c == '\r' then "\\r"
    else if c == '\t' then "\\t"
    else [c]
  }

  function QuoteChars(s: string): string {
    if s == [] then [] else QuoteChar(s[0]) + QuoteChars(s[1..])
  }

  lemma {:induction false} QuoteSnoc(s: string, c: char)
    ensures QuoteChars(s + [c]) == QuoteChars(s) + QuoteChar(c)
  {
    hide QuoteChar;
    if s == [] {
      assert s + [c] == [c] && [c][1..] == [] && QuoteChars([]) == [];
    } else {
      QuoteSnoc(s[1..], c);
      assert (s + [c])[1..] == s[1..] + [c];
      Assoc(QuoteChar(s[0]), QuoteChars(s[1..]), QuoteChar(c));
    }
  }

  /** Source form of a text, between single quotes. */
  method Quote(s: string) returns (out: string)
    ensures out == ['\''] + QuoteChars(s) + ['\'']
  {
    out := ['\''];
    for i := 0 to |s|
      invariant out == ['\''] + QuoteChars(s[..i])
    {
      QuoteSnoc(s[..i], s[i]);
      assert s[..i] + [s[i]] == s[..i + 1];
      Assoc(['\''], QuoteChars(s[..i]), QuoteChar(s[i]));
      match s[i] {
        case '\\' => out := out + "\\\\";
        case '\'' => out := out + "\\'";
        case '\n' => out := out + "\\n";
        case '\r' => out := out + "\\r";
        case '\t' => out := out + "\\t";
        case c => out := out + [c];
      }
    }
    assert s[..|s|] == s;
    out := out + ['\''];
  }

  lemma NextQuote(c: char, rest: string)
    ensures Next(QuoteChar(c) + rest) == Some((c, |QuoteChar(c)|))
  {}

  lemma {:induction false} QuoteRoundTrip(s: string)
    ensures Read(QuoteChars(s)) == Some(s)
  {
    if s != [] {
      QuoteRoundTrip(s[1..]);
      NextQuote(s[0], QuoteChars(s[1..]));
      ReadOne(QuoteChar(s[0]), s[0], QuoteChars(s[1..]));
      assert [s[0]] + s[1..] == s;
    }
  }

  /** Where a string literal delimited by `q` ends: the first `q` that is not escaped. */
  function Close(s: string, q: char): Option<nat>
    decreases |s|
  {
    if s == [] then None
    else if s[0] == q then Some(0)
    else
      var n := if s[0] == '\\' then 2 else 1;
      if |s| < n then None
      else
        var r := Close(s[n..], q);
        if r.None? then None else Some(n + r.value)
  }

  lemma QuoteCloses1(c: char, t: string)
    requires Close(t, '\'').Some?
    ensures Close(QuoteChar(c) + t, '\'') == Some(|QuoteChar(c)| + Close(t, '\'').value)
  {
    assert (QuoteChar(c) + t)[|QuoteChar(c)|..] == t;
  }

  lemma {:induction false} QuoteCloses(s: string, rest: string)
    ensures Close(QuoteChars(s) + (['\''] + rest), '\'') == Some(|QuoteChars(s)|)
  {
    if s == [] {
      assert [] + (['\''] + rest) == ['\''] + rest;
    } else {
      QuoteCloses(s[1..], rest);
      var u, t := QuoteChar(s[0]), QuoteChars(s[1..]) + (['\''] + rest);
      Assoc(u, QuoteChars(s[1..]), ['\''] + rest);
      QuoteCloses1(s[0], t);
    }
  }

  lemma {:induction false} PlainCloses(u: string, t: string, q: char)
    requires forall i :: 0 <= i < |u| ==> u[i] != q && u[i] != '\\'
    ensures Close(u + t, q) == if Close(t, q).None? then None else Some(|u| + Close(t, q).value)
  {
    if u == [] {
      assert u + t == t;
    } else {
      PlainCloses(u[1..], t, q);
      assert (u + t)[1..] == u[1..] + t;
    }
  }

  /** A backslash and what follows it are passed over. */
  lemma SlashCloses(e: char, x: string, q: char)
    requires q != '\\'
    ensures Close(['\\', e] + x, q) == if Close(x, q).None? then None else Some(2 + Close(x, q).value)
  {
    var s := ['\\', e] + x;
    assert s[0] == '\\' && s[2..] == x;
  }

  lemma EscapedCloses(e: char, v: string, t: string, q: char)
    requires q != '\\' && forall i :: 0 <= i < |v| ==> v[i] != q && v[i] != '\\'
    ensures Close(['\\', e] + v + t, q) == if Close(t, q).None? then None else Some(2 + |v| + Close(t, q).value)
  {
    hide Close;
    PlainCloses(v, t, q);
    SlashCloses(e, v + t, q);
    Assoc(['\\', e], v, t);
  }

  lemma EscapeCloses1(c: char, t: string)
    requires Close(t, '"').Some?
    ensures Close(EscapeChar(c) + t, '"') == Some(|EscapeChar(c)| + Close(t, '"').value)
  {
    var u := EscapeChar(c);
    assert (u + t)[|u|..] == t;
    if |u| >= 2 {
      EscapedCloses(u[1], u[2..], t, '"');
      assert ['\\', u[1]] + u[2..] == u;
    }
  }

  /** A JSON string ends at the quote the writer put there. */
  lemma {:induction false} EscapeCloses(s: string, rest: string)
    ensures Close(EscapeChars(s) + (['"'] + rest), '"') == Some(|EscapeChars(s)|)
  {
    if s == [] {
      assert [] + (['"'] + rest) == ['"'] + rest;
    } else {
      EscapeCloses(s[1..], rest);
      var u, t := EscapeChar(s[0]), EscapeChars(s[1..]) + (['"'] + rest);
      Assoc(u, EscapeChars(s[1..]), ['"'] + rest);
      EscapeCloses1(s[0], t);
    }
  }

  // ---------------------------------------------------------------- UTF-16

  /** Code units of a text (section 2.1 of RFC 2781). */
  function Units(s: string): seq<nat> {
    if s == [] then []
    else
      var n := s[0] as nat;
      (if n < 0x10000 then [n] else [Hi(s[0]), Lo(s[0])]) + Units(s[1..])
  }

  /** A `\u` escape for each quadruple of digits. */
  function Codes(qs: seq<string>): string {
    if qs == [] then [] else "\\u" + qs[0] + Codes(qs[1..])
  }

  ghost predicate Quads(qs: seq<string>, us: seq<nat>) {
    && |qs| == |us|
    && forall i :: 0 <= i < |qs| ==> |qs[i]| == 4 && Value(qs[i], 16) == Some(us[i]) && us[i] < 0x10000
  }

  lemma NextOfCodes(qs: seq<string>, us: seq<nat>)
    requires Quads(qs, us) && qs != []
    ensures Next(Codes(qs)) ==
            if 0xDC00 <= us[0] < 0xE000 then None
            else if 0xD800 <= us[0] < 0xDC00 then
              if |us| < 2 || !(0xDC00 <= us[1] < 0xE000) then None else Some((Pair(us[0], us[1]), 12))
            else Some((us[0] as char, 6))
  {
    hide Value;
    var s := Codes(qs);
    assert s[2..6] == qs[0];
    if |qs| > 1 {
      var t := Codes(qs[1..]);
      assert t == "\\u" + qs[1] + Codes(qs[1..][1..]);
      assert s[6..] == t && s[8..12] == qs[1];
    }
  }

  lemma UnitsHead(s: string)
    requires s != []
    ensures var n := s[0] as nat;
            Units(s) == (if n < 0x10000 then [n] else [Hi(s[0]), Lo(s[0])]) + Units(s[1..])
  {}

  function Hi(c: char): (n: nat)
    requires c as int >= 0x10000
    ensures 0xD800 <= n < 0xDC00
  {
    0xD800 + (c as nat - 0x10000) / 0x400
  }

  function Lo(c: char): (n: nat)
    requires c as int >= 0x10000
    ensures 0xDC00 <= n < 0xE000
  {
    0xDC00 + (c as nat - 0x10000) % 0x400
  }

  lemma PairExact(c: char, n1: nat, n2: nat)
    requires 0xD800 <= n1 < 0xDC00 && 0xDC00 <= n2 < 0xE000
    ensures Pair(n1, n2) == c <==> c as int >= 0x10000 && Hi(c) == n1 && Lo(c) == n2
  {
    if c as int >= 0x10000 {
      var d, h, l := c as nat - 0x10000, n1 - 0xD800, n2 - 0xDC00;
      assert d / 0x400 * 0x400 + d % 0x400 == d;
    }
  }

  /** Escaped code units read as `s` exactly when they are the code units of `s`: pairs combine, and
      a surrogate on its own is refused. */
  lemma {:induction false} Utf16Exact(qs: seq<string>, us: seq<nat>, s: string)
    requires Quads(qs, us)
    ensures Read(Codes(qs)) == Some(s) <==> Units(s) == us
    decreases |qs|
  {
    if s != [] { UnitsHead(s); }
    if qs != [] {
      NextOfCodes(qs, us);
      var n := Next(Codes(qs));
      if n.Some? {
        var k, c := n.value.1 / 6, n.value.0;
        Utf16Rest(qs, us, k, c);
        var rest := if s == [] then [] else s[1..];
        Utf16Exact(qs[k..], us[k..], rest);
        if k == 2 && s != [] { PairExact(s[0], us[0], us[1]); }
        TakeHead(us, s, k, c);
        var r := Read(Codes(qs[k..]));
        if r.Some? { HeadTail(s, c, r.value); }
      }
    }
  }

  lemma CodesDrop(qs: seq<string>)
    requires qs != [] && |qs[0]| == 4
    ensures |Codes(qs)| >= 6 && Codes(qs)[6..] == Codes(qs[1..])
  {}

  lemma QuadsDrop(qs: seq<string>, us: seq<nat>, k: nat)
    requires Quads(qs, us) && k <= |qs| && qs != []
    ensures k <= |us| && Quads(qs[k..], us[k..]) && |qs[0]| == 4 && (k < |qs| ==> |qs[k..][0]| == 4)
  {}

  lemma DropTwice(s: string)
    requires |s| >= 12
    ensures s[6..][6..] == s[12..]
  {}

  lemma Utf16Rest(qs: seq<string>, us: seq<nat>, k: nat, c: char)
    requires Quads(qs, us) && qs != [] && Next(Codes(qs)) == Some((c, 6 * k)) && k <= |qs| && 1 <= k <= 2
    ensures Read(Codes(qs)) == Join([c], Read(Codes(qs[k..]))) && Quads(qs[k..], us[k..])
  {
    hide Next, Value, Read, Codes, Quads;
    QuadsDrop(qs, us, k);
    CodesDrop(qs);
    var s := Codes(qs);
    if k == 2 {
      QuadsDrop(qs, us, 1);
      CodesDrop(qs[1..]);
      assert qs[1..][1..] == qs[2..];
      DropTwice(s);
    }
    ReadStep(s, "");
    Joined(s);
    assert "" + [c] == [c];
  }

  lemma HeadTail(s: string, c: char, r: string)
    ensures [c] + r == s <==> s != [] && s[0] == c && r == s[1..]
  {
    if [c] + r == s { assert s[1..] == r; }
    if s != [] && s[0] == c && r == s[1..] { assert [c] + r == s; }
  }

  /** The units of `s` are `us` exactly when its first character takes the first `k` units. */
  lemma TakeHead(us: seq<nat>, s: string, k: nat, c: char)
    requires 1 <= k <= 2 && k <= |us|
    requires if k == 1 then c as nat == us[0] && us[0] < 0x10000
             else 0xD800 <= us[0] < 0xDC00 && 0xDC00 <= us[1] < 0xE000 && c == Pair(us[0], us[1])
    ensures Units(s) == us <==> s != [] && s[0] == c && Units(s[1..]) == us[k..]
  {
    if s != [] {
      UnitsHead(s);
      if k == 2 { PairExact(s[0], us[0], us[1]); }
      var n := s[0] as nat;
      var head := if n < 0x10000 then [n] else [Hi(s[0]), Lo(s[0])];
      assert us == us[..k] + us[k..];
      if Units(s) == us {
        assert us[0] == head[0];
        if k == 2 { assert n >= 0x10000 && us[1] == head[1]; }
        assert Units(s[1..]) == Units(s)[|head|..];
      }
    }
  }

  /** A `\x` escape gives the byte its digits name exactly when the first digit is zero. */
  lemma HexExact(a: char, b: char)
    requires Digit(a).Some? && Digit(b).Some?
    ensures Read("\\x" + [a, b]) == Some([(Digit(a).value * 16 + Digit(b).value) as char]) <==> Digit(a) == Some(0)
  {
    var s := "\\x" + [a, b];
    assert s[2..4] == [a, b] && s[4..] == [];
    Value2(a, b, 256);
    var x, y := Digit(a).value, Digit(b).value;
    assert Next(s) == Some(((x * 256 + y) as char, 4));
    ReadStep(s, "");
    Joined(s);
    assert "" + [(x * 256 + y) as char] + "" == [(x * 256 + y) as char];
    assert Read(s) == Some([(x * 256 + y) as char]);
    assert (x * 256 + y) as char == (x * 16 + y) as char <==> x == 0;
  }
}
