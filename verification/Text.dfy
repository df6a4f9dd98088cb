/** Text as bytes: UTF-8 encoding of Unicode scalar values (section 3 of RFC 3629). */
module Text {
  newtype Byte = b: int | 0 <= b < 256

  type Bytes = seq<Byte>

  predicate Tail(b: Byte) {
    0x80 <= b <= 0xBF
  }

  /** Length of the well-formed sequence `s` starts with, or 0 (section 4 of RFC 3629). */
  function Lead(s: Bytes): (n: nat)
    ensures n <= |s| && n <= 4
  {
    if |s| >= 1 && s[0] <= 0x7F then 1
    else if |s| >= 2 && 0xC2 <= s[0] <= 0xDF && Tail(s[1]) then 2
    else if |s| >= 3 && 0xE0 <= s[0] <= 0xEF && Tail(s[1]) && Tail(s[2])
            && (s[0] == 0xE0 ==> s[1] >= 0xA0) && (s[0] == 0xED ==> s[1] <= 0x9F) then 3
    else if |s| >= 4 && 0xF0 <= s[0] <= 0xF4 && Tail(s[1]) && Tail(s[2]) && Tail(s[3])
            && (s[0] == 0xF0 ==> s[1] >= 0x90) && (s[0] == 0xF4 ==> s[1] <= 0x8F) then 4
    else 0
  }

  predicate Utf8(s: Bytes) {
    s == [] || (Lead(s) > 0 && Utf8(s[Lead(s)..]))
  }

  function Encode1(c: char): (r: Bytes)
    ensures 1 <= |r| <= 4 && (c as int < 0x80 ==> r == [c as Byte])
    ensures c as int >= 0x80 ==> forall i :: 0 <= i < |r| ==> r[i] >= 0x80
  {
    var n := c as int;
    if n < 0x80 then [n as Byte]
    else if n < 0x800 then [(0xC0 + n / 0x40) as Byte, (0x80 + n % 0x40) as Byte]
    else if n < 0x10000 then
      [(0xE0 + n / 0x1000) as Byte, (0x80 + n / 0x40 % 0x40) as Byte, (0x80 + n % 0x40) as Byte]
    else
      [(0xF0 + n / 0x40000) as Byte, (0x80 + n / 0x1000 % 0x40) as Byte, (0x80 + n / 0x40 % 0x40) as Byte,
       (0x80 + n % 0x40) as Byte]
  }

  function Encode(s: string): Bytes {
    if s == [] then [] else Encode1(s[0]) + Encode(s[1..])
  }

  lemma LeadOf(c: char, rest: Bytes)
    ensures Lead(Encode1(c) + rest) == |Encode1(c)|
  {
    var e := Encode1(c);
    forall i | 0 <= i < |e| ensures (e + rest)[i] == e[i] {}
    if |e| == 1 {
    } else if |e| == 2 {
      assert Lead(e + rest) == 2;
    } else if |e| == 3 {
      assert Lead(e + rest) == 3;
    } else {
      assert Lead(e + rest) == 4;
    }
  }

  /** What is encoded is valid. */
  lemma {:induction false} EncodeValid(s: string)
    ensures Utf8(Encode(s))
  {
    if s != [] {
      EncodeValid(s[1..]);
      LeadOf(s[0], Encode(s[1..]));
      assert (Encode1(s[0]) + Encode(s[1..]))[|Encode1(s[0])|..] == Encode(s[1..]);
    }
  }

  lemma Split3(x: int, y: int, z: int)
    requires 0 <= x && 0 <= y < 0x40 && 0 <= z < 0x40
    ensures var n := x * 0x1000 + y * 0x40 + z; n / 0x1000 == x && n / 0x40 % 0x40 == y && n % 0x40 == z
  {
    assert (x * 0x1000 + y * 0x40 + z) / 0x40 == x * 0x40 + y;
  }

  lemma Split4(w: int, x: int, y: int, z: int)
    requires 0 <= w && 0 <= x < 0x40 && 0 <= y < 0x40 && 0 <= z < 0x40
    ensures var n := w * 0x40000 + x * 0x1000 + y * 0x40 + z;
            n / 0x40000 == w && n / 0x1000 % 0x40 == x && n / 0x40 % 0x40 == y && n % 0x40 == z
  {
    Split3(w * 0x40 + x, y, z);
  }

  function Char2(a: Byte, b: Byte): (c: char)
    requires Lead([a, b]) == 2
    ensures Encode1(c) == [a, b]
  {
    ((a as int - 0xC0) * 0x40 + (b as int - 0x80)) as char
  }

  function Char3(a: Byte, b: Byte, d: Byte): (c: char)
    requires Lead([a, b, d]) == 3
    ensures Encode1(c) == [a, b, d]
  {
    var x, y, z := a as int - 0xE0, b as int - 0x80, d as int - 0x80;
    Split3(x, y, z);
    (x * 0x1000 + y * 0x40 + z) as char
  }

  function Char4(a: Byte, b: Byte, d: Byte, e: Byte): (c: char)
    requires Lead([a, b, d, e]) == 4
    ensures Encode1(c) == [a, b, d, e]
  {
    var w, x, y, z := a as int - 0xF0, b as int - 0x80, d as int - 0x80, e as int - 0x80;
    Split4(w, x, y, z);
    (w * 0x40000 + x * 0x1000 + y * 0x40 + z) as char
  }

  /** The character whose encoding `s` starts with. */
  function Char(s: Bytes): (c: char)
    requires Lead(s) > 0
    ensures Encode1(c) == s[..Lead(s)]
  {
    match Lead(s)
    case 1 => s[0] as char
    case 2 => Char2(s[0], s[1])
    case 3 => Char3(s[0], s[1], s[2])
    case _ => Char4(s[0], s[1], s[2], s[3])
  }

  /** Nothing else is. */
  lemma {:induction false} ValidEncoded(s: Bytes) returns (t: string)
    requires Utf8(s)
    ensures Encode(t) == s
    decreases |s|
  {
    if s == [] {
      t := "";
    } else {
      var rest := ValidEncoded(s[Lead(s)..]);
      t := [Char(s)] + rest;
      assert t[1..] == rest && s == s[..Lead(s)] + s[Lead(s)..];
    }
  }

  /** Valid bytes are exactly the encodings of texts. */
  lemma Utf8Exact(s: Bytes)
    ensures Utf8(s) <==> exists t :: Encode(t) == s
  {
    hide Encode, Utf8;
    if Utf8(s) { var t := ValidEncoded(s); }
    forall t | Encode(t) == s ensures Utf8(s) { EncodeValid(t); }
  }

  lemma {:induction false} EncodeConcat(s: string, t: string)
    ensures Encode(s + t) == Encode(s) + Encode(t)
  {
    if s == [] {
      assert s + t == t;
    } else {
      EncodeConcat(s[1..], t);
      assert (s + t)[1..] == s[1..] + t;
    }
  }
}
