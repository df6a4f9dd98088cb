/** Manifesting values as JSON: a writer over one growing buffer and one shared padding, against a
    reader of JSON texts that knows nothing of layouts. */
module Json {
  import opened Options
  import opened Escapes
  import T = Text

  /** A JSON value. Numbers are tokens: how they are formatted is not part of this model. */
  datatype Value =
    | Null
    | Bool(b: bool)
    | Num(token: string)
    | Str(s: string)
    | Arr(items: seq<Value>)
    | Obj(fields: seq<Field>)

  datatype Field = Field(name: string, value: Value)

  // ---------------------------------------------------------------- JSON texts

  /** Insignificant whitespace (section 2 of RFC 8259). */
  predicate White(c: char) {
    c == ' ' || c == '\t' || c == '\n' || c == '\r'
  }

  predicate AllWhite(s: string) {
    forall i :: 0 <= i < |s| ==> White(s[i])
  }

  function Skip(s: string): (r: string)
    ensures |r| <= |s| && (r != [] ==> !White(r[0]))
  {
    if s != [] && White(s[0]) then Skip(s[1..]) else s
  }

  predicate NumChar(c: char) {
    '0' <= c <= '9' || c == '-' || c == '+' || c == '.' || c == 'e' || c == 'E'
  }

  /** Length of the run of digits `s` starts with. */
  function Digits(s: string): (n: nat)
    ensures n <= |s| && forall i :: 0 <= i < n ==> '0' <= s[i] <= '9'
  {
    if s != [] && '0' <= s[0] <= '9' then 1 + Digits(s[1..]) else 0
  }

  /** A number (section 6 of RFC 8259). */
  predicate IsNumber(s: string) {
    var t := if s != [] && s[0] == '-' then s[1..] else s;
    var n := Digits(t);
    n > 0 && (t[0] == '0' ==> n == 1) && IsFraction(t[n..])
  }

  predicate IsFraction(s: string) {
    if s != [] && s[0] == '.' then
      var m := Digits(s[1..]);
      m > 0 && IsExponent(s[1..][m..])
    else IsExponent(s)
  }

  predicate IsExponent(s: string) {
    s == [] || ((s[0] == 'e' || s[0] == 'E')
                && var d := if |s| > 1 && (s[1] == '+' || s[1] == '-') then s[2..] else s[1..];
                   d != [] && Digits(d) == |d|)
  }

  /** Length of the run of number characters `s` starts with. */
  function Run(s: string): (n: nat)
    ensures n <= |s|
  {
    if s != [] && NumChar(s[0]) then 1 + Run(s[1..]) else 0
  }

  datatype Parsed<+T> = Got(v: T, rest: string) | Fail

  /** The character a string body goes on with (section 7 of RFC 8259). */
  function NextChar(s: string): (r: Option<(char, nat)>)
    requires s != []
    ensures r.Some? ==> 0 < r.value.1 <= |s|
  {
    if s[0] as int < 0x20 then None
    else if s[0] != '\\' then Some((s[0], 1))
    else if |s| < 2 then None
    else
      match s[1]
      case '"' => Some(('"', 2))
      case '\\' => Some(('\\', 2))
      case '/' => Some(('/', 2))
      case 'b' => Some((8 as char, 2))
      case 'f' => Some((12 as char, 2))
      case 'n' => Some(('\n', 2))
      case 'r' => Some(('\r', 2))
      case 't' => Some(('\t', 2))
      case 'u' => NextCode(s)
      case _ => None
  }

  /** A string, after its opening quote. */
  function ParseString(s: string): (r: Parsed<string>)
    ensures r.Got? ==> |r.rest| < |s|
    decreases |s|
  {
    if s == [] then Fail
    else if s[0] == '"' then Got([], s[1..])
    else
      var c := NextChar(s);
      if c.None? then Fail
      else
        match ParseString(s[c.value.1..])
        case Got(t, rest) => Got([c.value.0] + t, rest)
        case Fail => Fail
  }

  /** The value a text starts with, after whitespace. */
  function ParseValue(s: string): (r: Parsed<Value>)
    ensures r.Got? ==> |r.rest| < |s|
    decreases |s|, 0
  {
    var t := Skip(s);
    if t == [] then Fail
    else if "null" <= t then Got(Null, t[4..])
    else if "true" <= t then Got(Bool(true), t[4..])
    else if "false" <= t then Got(Bool(false), t[5..])
    else if t[0] == '"' then
      match ParseString(t[1..])
      case Got(x, rest) => Got(Str(x), rest)
      case Fail => Fail
    else if t[0] == '[' then
      var u := Skip(t[1..]);
      if u != [] && u[0] == ']' then Got(Arr([]), u[1..])
      else
        match ParseItems(t[1..])
        case Got(xs, rest) => Got(Arr(xs), rest)
        case Fail => Fail
    else if t[0] == '{' then
      var u := Skip(t[1..]);
      if u != [] && u[0] == '}' then Got(Obj([]), u[1..])
      else
        match ParseFields(t[1..])
        case Got(fs, rest) => Got(Obj(fs), rest)
        case Fail => Fail
    else
      var n := Run(t);
      if IsNumber(t[..n]) then Got(Num(t[..n]), t[n..]) else Fail
  }

  /** Array elements up to the closing bracket. */
  function ParseItems(s: string): (r: Parsed<seq<Value>>)
    ensures r.Got? ==> |r.rest| < |s|
    decreases |s|, 1
  {
    match ParseValue(s)
    case Fail => Fail
    case Got(x, after) =>
      var t := Skip(after);
      if t != [] && t[0] == ']' then Got([x], t[1..])
      else if t != [] && t[0] == ',' then
        match ParseItems(t[1..])
        case Got(xs, rest) => Got([x] + xs, rest)
        case Fail => Fail
      else Fail
  }

  /** A name and the colon after it. */
  function ParseName(s: string): (r: Parsed<string>)
    ensures r.Got? ==> |r.rest| < |s|
  {
    var t := Skip(s);
    if t == [] || t[0] != '"' then Fail
    else
      match ParseString(t[1..])
      case Fail => Fail
      case Got(name, after) =>
        var u := Skip(after);
        if u != [] && u[0] == ':' then Got(name, u[1..]) else Fail
  }

  /** Object members up to the closing brace. */
  function ParseFields(s: string): (r: Parsed<seq<Field>>)
    ensures r.Got? ==> |r.rest| < |s|
    decreases |s|, 1
  {
    match ParseName(s)
    case Fail => Fail
    case Got(name, colon) =>
      match ParseValue(colon)
      case Fail => Fail
      case Got(x, after) =>
        var t := Skip(after);
        if t != [] && t[0] == '}' then Got([Field(name, x)], t[1..])
        else if t != [] && t[0] == ',' then
          match ParseFields(t[1..])
          case Got(fs, rest) => Got([Field(name, x)] + fs, rest)
          case Fail => Fail
        else Fail
  }

  /** A whole JSON text: one value between whitespace. */
  function ParseText(s: string): Option<Value> {
    match ParseValue(s)
    case Got(v, rest) => if Skip(rest) == [] then Some(v) else None
    case Fail => None
  }

  // ---------------------------------------------------------------- what the writer is given

  /** An evaluated value. Functions, elements whose evaluation fails, and objects one of whose
      assertions does not hold, cannot be written. */
  datatype Val =
    | VNull
    | VBool(b: bool)
    | VNum(token: string)
    | VStr(s: string)
    | VArr(items: seq<Val>)
    | VObj(holds: bool, fields: seq<Member>)
    | VFunc
    | VFailed

  datatype Member = Member(name: string, value: Val)

  predicate Writable(v: Val) {
    match v
    case VArr(items) => forall i :: 0 <= i < |items| ==> Writable(items[i])
    case VObj(holds, fields) => holds && forall i :: 0 <= i < |fields| ==> Writable(fields[i].value)
    case VFunc => false
    case VFailed => false
    case _ => true
  }

  /** Every number token in `v` is a JSON number. */
  ghost predicate Numeric(v: Val) {
    match v
    case VNum(t) => IsNumber(t)
    case VArr(items) => forall i :: 0 <= i < |items| ==> Numeric(items[i])
    case VObj(_, fields) => forall i :: 0 <= i < |fields| ==> Numeric(fields[i].value)
    case _ => true
  }

  function Meaning(v: Val): Value
    requires Writable(v)
  {
    match v
    case VNull => Null
    case VBool(b) => Bool(b)
    case VNum(t) => Num(t)
    case VStr(s) => Str(s)
    case VArr(items) => Arr(seq(|items|, i requires 0 <= i < |items| => Meaning(items[i])))
    case VObj(_, fields) =>
      Obj(seq(|fields|, i requires 0 <= i < |fields| => Field(fields[i].name, Meaning(fields[i].value))))
  }

  datatype Layout = Manifest | Std | ToString | Minify

  datatype Format = Format(layout: Layout, padding: string, newline: string, keyValSep: string)

  /** Padding and newline are whitespace, and the separator is a colon among whitespace. */
  ghost predicate FormatOk(o: Format) {
    && AllWhite(o.padding) && AllWhite(o.newline)
    && Skip(o.keyValSep) != [] && Skip(o.keyValSep)[0] == ':' && AllWhite(Skip(o.keyValSep)[1..])
  }

  // ---------------------------------------------------------------- the text written

  /** Whitespace before element `i`, with padding `pad` for the elements. */
  function Space(o: Format, i: nat, pad: string): string {
    match o.layout
    case Manifest => o.newline + pad
    case Std => o.newline + pad
    case ToString => if i != 0 then " " else ""
    case Minify => ""
  }

  function Comma(i: nat): string {
    if i != 0 then "," else ""
  }

  function Lead(o: Format, i: nat, pad: string): string {
    Comma(i) + Space(o, i, pad)
  }

  /** Before the closing bracket of `n` elements, with the padding outside. */
  function Trail(o: Format, n: nat, pad: string): string {
    match o.layout
    case Manifest => if n == 0 then " " else o.newline + pad
    case ToString => if n == 0 then " " else ""
    case Std => (if n == 0 then o.newline else "") + (o.newline + pad)
    case Minify => ""
  }

  function Quoted(s: string): string {
    "\"" + EscapeChars(s) + "\""
  }

  function Print(v: Val, pad: string, o: Format): string
    requires Writable(v)
    decreases v, 1
  {
    match v
    case VNull => "null"
    case VBool(b) => if b then "true" else "false"
    case VNum(t) => t
    case VStr(s) => Quoted(s)
    case VArr(items) => "[" + PrintItems(v, 0, pad + o.padding, o) + Trail(o, |items|, pad) + "]"
    case VObj(_, fields) => "{" + PrintFields(v, 0, pad + o.padding, o) + Trail(o, |fields|, pad) + "}"
  }

  /** Elements `i` and on of array `v`. */
  function PrintItems(v: Val, i: nat, pad: string, o: Format): string
    requires v.VArr? && Writable(v) && i <= |v.items|
    decreases v, 0, |v.items| - i
  {
    if i == |v.items| then "" else Lead(o, i, pad) + Print(v.items[i], pad, o) + PrintItems(v, i + 1, pad, o)
  }

  function PrintFields(v: Val, i: nat, pad: string, o: Format): string
    requires v.VObj? && Writable(v) && i <= |v.fields|
    decreases v, 0, |v.fields| - i
  {
    if i == |v.fields| then ""
    else
      Lead(o, i, pad) + (Quoted(v.fields[i].name) + o.keyValSep) + Print(v.fields[i].value, pad, o)
      + PrintFields(v, i + 1, pad, o)
  }

  // ---------------------------------------------------------------- the writer

  class Writer {
    var buf: T.Bytes
    var curPadding: string
    /** The characters that the bytes of `buf` stand for. */
    ghost var text: string

    ghost predicate Valid()
      reads this
    {
      buf == T.Encode(text)
    }

    constructor ()
      ensures Valid() && text == "" && curPadding == ""
    {
      buf, curPadding, text := [], "", "";
    }

    method Push(s: string)
      requires Valid()
      modifies this`buf, this`text
      ensures Valid() && text == old(text) + s
    {
      T.EncodeConcat(text, s);
      buf := buf + T.Encode(s);
      text := text + s;
    }

    /** A string, its bytes escaped in runs. */
    method PushQuoted(s: string)
      requires Valid()
      modifies this`buf, this`text
      ensures Valid() && text == old(text) + Quoted(s)
    {
      hide EscapeChars, EscapeBytes, T.Encode;
      Push("\"");
      EscapeEncoded(s);
      T.EncodeConcat(text, EscapeChars(s));
      buf := EscapeRaw(T.Encode(s), buf);
      text := text + EscapeChars(s);
      Push("\"");
    }

    /** Write `v`; on success the padding is what it was. A failure leaves both wherever they were. */
    method Write(v: Val, o: Format) returns (ok: bool)
      requires Valid()
      modifies this
      ensures Valid() && ok == Writable(v)
      ensures ok ==> text == old(text) + Print(v, old(curPadding), o) && curPadding == old(curPadding)
      ensures old(curPadding) <= curPadding
      decreases v, 1
    {
      match v {
        case VNull => Push("null"); ok := true;
        case VBool(b) => Push(if b then "true" else "false"); ok := true;
        case VNum(t) => Push(t); ok := true;
        case VStr(s) => PushQuoted(s); ok := true;
        case VArr(_) => ok := WriteArr(v, o);
        case VObj(_, _) => ok := WriteObj(v, o);
        case VFunc => ok := false;
        case VFailed => ok := false;
      }
    }

    method WriteArr(v: Val, o: Format) returns (ok: bool)
      requires v.VArr? && Valid()
      modifies this
      ensures Valid() && ok == Writable(v)
      ensures ok ==> text == old(text) + Print(v, old(curPadding), o) && curPadding == old(curPadding)
      ensures old(curPadding) <= curPadding
      decreases v, 0
    {
      hide Print, PrintItems, Lead, Space, Trail, T.Encode;
      Push("[");
      var oldLen := |curPadding|;
      curPadding := curPadding + o.padding;
      ghost var pad := curPadding;
      for i := 0 to |v.items|
        invariant Valid() && curPadding == pad && forall j :: 0 <= j < i ==> Writable(v.items[j])
        invariant Writable(v) ==> text + PrintItems(v, i, pad, o) == old(text) + "[" + PrintItems(v, 0, pad, o)
      {
        if v.items[i].VFailed? { return false; }
        ghost var before := text;
        if i != 0 { Push(","); }
        Push(Space(o, i, curPadding));
        AfterLead(before, o, i, pad, text);
        var fine := Write(v.items[i], o);
        if !fine { return false; }
        if Writable(v) { ItemStep(v, i, pad, o, before); }
      }
      curPadding := curPadding[..oldLen];
      PrintArr(v, old(text), old(curPadding), o);
      Push(Trail(o, |v.items|, curPadding));
      Push("]");
      ok := true;
    }

    method WriteObj(v: Val, o: Format) returns (ok: bool)
      requires v.VObj? && Valid()
      modifies this
      ensures Valid() && ok == Writable(v)
      ensures ok ==> text == old(text) + Print(v, old(curPadding), o) && curPadding == old(curPadding)
      ensures old(curPadding) <= curPadding
      decreases v, 0
    {
      hide Print, PrintFields, Lead, Space, Trail, Quoted, T.Encode;
      if !v.holds { return false; }
      Push("{");
      var oldLen := |curPadding|;
      curPadding := curPadding + o.padding;
      ghost var pad := curPadding;
      for i := 0 to |v.fields|
        invariant Valid() && curPadding == pad && forall j :: 0 <= j < i ==> Writable(v.fields[j].value)
        invariant Writable(v) ==> text + PrintFields(v, i, pad, o) == old(text) + "{" + PrintFields(v, 0, pad, o)
      {
        if v.fields[i].value.VFailed? { return false; }
        ghost var before := text;
        if i != 0 { Push(","); }
        Push(Space(o, i, curPadding));
        AfterLead(before, o, i, pad, text);
        ghost var led := text;
        PushQuoted(v.fields[i].name);
        Push(o.keyValSep);
        Assoc(led, Quoted(v.fields[i].name), o.keyValSep);
        var fine := Write(v.fields[i].value, o);
        if !fine { return false; }
        if Writable(v) { FieldStep(v, i, pad, o, before); }
      }
      curPadding := curPadding[..oldLen];
      PrintObj(v, old(text), old(curPadding), o);
      Push(Trail(o, |v.fields|, curPadding));
      Push("}");
      ok := true;
    }
  }

  /** The bytes of the whole text, if the value can be written. */
  method ManifestJson(v: Val, o: Format) returns (out: Option<T.Bytes>)
    ensures out == if Writable(v) then Some(T.Encode(Print(v, "", o))) else None
    ensures out.Some? ==> T.Utf8(out.value)
  {
    hide Print, T.Encode, T.Utf8;
    var w := new Writer();
    var ok := w.Write(v, o);
    if !ok { return None; }
    assert "" + Print(v, "", o) == Print(v, "", o);
    T.EncodeValid(Print(v, "", o));
    out := Some(w.buf);
  }

  lemma PrintArr(v: Val, buf: string, pad: string, o: Format)
    requires v.VArr? && Writable(v)
    ensures PrintItems(v, |v.items|, pad + o.padding, o) == ""
    ensures buf + "[" + PrintItems(v, 0, pad + o.padding, o) + Trail(o, |v.items|, pad) + "]" == buf + Print(v, pad, o)
  {
    Join4(buf, "[", PrintItems(v, 0, pad + o.padding, o), Trail(o, |v.items|, pad), "]");
  }

  lemma PrintObj(v: Val, buf: string, pad: string, o: Format)
    requires v.VObj? && Writable(v)
    ensures PrintFields(v, |v.fields|, pad + o.padding, o) == ""
    ensures buf + "{" + PrintFields(v, 0, pad + o.padding, o) + Trail(o, |v.fields|, pad) + "}" == buf + Print(v, pad, o)
  {
    Join4(buf, "{", PrintFields(v, 0, pad + o.padding, o), Trail(o, |v.fields|, pad), "}");
  }

  lemma AfterLead(before: string, o: Format, i: nat, pad: string, after: string)
    requires after == (if i != 0 then before + "," else before) + Space(o, i, pad)
    ensures after == before + Lead(o, i, pad)
  {
    hide Space;
  }

  lemma Join3(x: string, a: string, b: string, c: string)
    ensures x + a + b + c == x + (a + b + c)
  {}

  lemma Join4(x: string, a: string, b: string, c: string, d: string)
    ensures x + a + b + c + d == x + (a + b + c + d)
  {}

  lemma ItemStep(v: Val, i: nat, pad: string, o: Format, before: string)
    requires v.VArr? && Writable(v) && i < |v.items|
    ensures before + Lead(o, i, pad) + Print(v.items[i], pad, o) + PrintItems(v, i + 1, pad, o)
            == before + PrintItems(v, i, pad, o)
  {
    hide Lead, Print;
    Join3(before, Lead(o, i, pad), Print(v.items[i], pad, o), PrintItems(v, i + 1, pad, o));
  }

  lemma FieldStep(v: Val, i: nat, pad: string, o: Format, before: string)
    requires v.VObj? && Writable(v) && i < |v.fields|
    ensures before + Lead(o, i, pad) + (Quoted(v.fields[i].name) + o.keyValSep) + Print(v.fields[i].value, pad, o)
            + PrintFields(v, i + 1, pad, o) == before + PrintFields(v, i, pad, o)
  {
    hide Lead, Print, Quoted;
    Join4(before, Lead(o, i, pad), Quoted(v.fields[i].name) + o.keyValSep, Print(v.fields[i].value, pad, o),
          PrintFields(v, i + 1, pad, o));
  }

  // ---------------------------------------------------------------- reading what was written

  lemma {:induction false} SkipWhite(w: string, x: string)
    requires AllWhite(w)
    ensures Skip(w + x) == Skip(x)
  {
    if w == [] {
      assert w + x == x;
    } else {
      SkipWhite(w[1..], x);
      assert (w + x)[1..] == w[1..] + x;
    }
  }

  /** Whitespace before a value, or before the first element or member, does not matter. */
  lemma WhiteFirst(w: string, x: string)
    requires AllWhite(w)
    ensures ParseValue(w + x) == ParseValue(x) && ParseItems(w + x) == ParseItems(x)
    ensures ParseName(w + x) == ParseName(x) && ParseFields(w + x) == ParseFields(x)
  {
    SkipWhite(w, x);
  }

  lemma NextEscaped(c: char, rest: string)
    ensures var u := EscapeChar(c); u[0] != '"' && NextChar(u + rest) == Some((c, |u|))
  {
    NextEscape(c, rest);
  }

  lemma {:induction false} StringReads(s: string, rest: string)
    ensures ParseString(EscapeChars(s) + ("\"" + rest)) == Got(s, rest)
  {
    if s == [] {
      assert EscapeChars(s) + ("\"" + rest) == "\"" + rest;
    } else {
      var u, t := EscapeChar(s[0]), EscapeChars(s[1..]) + ("\"" + rest);
      StringReads(s[1..], rest);
      NextEscaped(s[0], t);
      hide EscapeChar, NextChar;
      Assoc(u, EscapeChars(s[1..]), "\"" + rest);
      assert (u + t)[|u|..] == t && [s[0]] + s[1..] == s;
    }
  }

  lemma QuotedReads(s: string, rest: string)
    ensures Quoted(s) + rest == "\"" + (EscapeChars(s) + ("\"" + rest))
    ensures ParseString((Quoted(s) + rest)[1..]) == Got(s, rest)
  {
    hide ParseString, EscapeChars;
    StringReads(s, rest);
    var u := EscapeChars(s);
    Assoc("\"" + u, "\"", rest);
    Assoc("\"", u, "\"" + rest);
    assert ("\"" + (u + ("\"" + rest)))[1..] == u + ("\"" + rest);
  }

  /** A character is never written with more characters than some spelling of it has. */
  lemma NoShorter(t: string)
    requires t != [] && t[0] != '"' && NextChar(t).Some?
    ensures |EscapeChar(NextChar(t).value.0)| <= NextChar(t).value.1
  {
    EscapeSize(NextChar(t).value.0);
  }

  lemma EscapeSize(c: char)
    ensures |EscapeChar(c)| <= 6
    ensures c as int >= 0x20 && c != '"' && c != '\\' ==> |EscapeChar(c)| == 1
    ensures c in {'"', '\\', 8 as char, 12 as char, '\n', '\r', '\t'} ==> |EscapeChar(c)| == 2
  {}

  /** No JSON spelling of a string is shorter than the one written. */
  lemma {:induction false} ShortestSpelling(t: string, s: string)
    requires ParseString(t) == Got(s, "")
    ensures |EscapeChars(s)| + 1 <= |t|
    decreases |t|
  {
    hide NextChar, EscapeChar;
    if t[0] != '"' {
      NoShorter(t);
      ShortestSpelling(t[NextChar(t).value.1..], s[1..]);
    }
  }

  /** A number ends where its characters do. */
  ghost predicate Stop(rest: string) {
    rest == [] || !NumChar(rest[0])
  }

  ghost predicate NumChars(s: string) {
    forall i :: 0 <= i < |s| ==> NumChar(s[i])
  }

  lemma NumCut(s: string, k: nat)
    requires k <= |s| && NumChars(s[..k]) && NumChars(s[k..])
    ensures NumChars(s)
  {
    forall i | 0 <= i < |s| ensures NumChar(s[i]) {
      if i < k { assert s[..k][i] == s[i]; } else { assert s[k..][i - k] == s[i]; }
    }
  }

  lemma NumberChars(t: string)
    requires IsNumber(t)
    ensures t != [] && (t[0] == '-' || '0' <= t[0] <= '9') && NumChars(t)
  {
    var u := if t[0] == '-' then t[1..] else t;
    var n := Digits(u);
    FractionChars(u[n..]);
    NumCut(u, n);
    if t[0] == '-' { NumCut(t, 1); }
  }

  lemma FractionChars(f: string)
    requires IsFraction(f)
    ensures NumChars(f)
  {
    if f != [] && f[0] == '.' {
      var m := Digits(f[1..]);
      ExponentChars(f[1..][m..]);
      NumCut(f[1..], m);
      NumCut(f, 1);
    } else {
      ExponentChars(f);
    }
  }

  lemma ExponentChars(e: string)
    requires IsExponent(e)
    ensures NumChars(e)
  {
    if e != [] { NumCut(e, if |e| > 1 && (e[1] == '+' || e[1] == '-') then 2 else 1); }
  }

  lemma {:induction false} RunAll(t: string, rest: string)
    requires NumChars(t) && Stop(rest)
    ensures Run(t + rest) == |t|
  {
    if t == [] {
      assert t + rest == rest;
    } else {
      RunAll(t[1..], rest);
      assert (t + rest)[1..] == t[1..] + rest;
    }
  }

  lemma NumberReads(t: string, rest: string)
    requires IsNumber(t) && Stop(rest)
    ensures ParseValue(t + rest) == Got(Num(t), rest)
  {
    NumberChars(t);
    RunAll(t, rest);
    hide IsNumber, Run;
    var s := t + rest;
    assert Skip(s) == s && s[0] == t[0];
    assert !("null" <= s) && !("true" <= s) && !("false" <= s) by {
      assert s[0] != "null"[0] && s[0] != "true"[0] && s[0] != "false"[0];
    }
    assert s[..|t|] == t && s[|t|..] == rest;
  }

  lemma WordReads(rest: string)
    ensures ParseValue("null" + rest) == Got(Null, rest)
    ensures ParseValue("true" + rest) == Got(Bool(true), rest)
    ensures ParseValue("false" + rest) == Got(Bool(false), rest)
  {
    assert Skip("null" + rest) == "null" + rest && ("null" + rest)[4..] == rest;
    assert Skip("true" + rest) == "true" + rest && ("true" + rest)[4..] == rest;
    assert Skip("false" + rest) == "false" + rest && ("false" + rest)[5..] == rest;
    assert ("null" + rest)[0] == 'n' && ("true" + rest)[0] == 't' && ("false" + rest)[0] == 'f';
    assert !("null" <= "true" + rest) && !("null" <= "false" + rest) && !("true" <= "false" + rest);
  }

  lemma StrReads(s: string, rest: string)
    ensures ParseValue(Quoted(s) + rest) == Got(Str(s), rest)
  {
    QuotedReads(s, rest);
    var t := Quoted(s) + rest;
    hide Quoted, EscapeChars, ParseString;
    assert t[0] == '"' && Skip(t) == t;
    assert !("null" <= t) && !("true" <= t) && !("false" <= t) by {
      assert t[0] != "null"[0] && t[0] != "true"[0] && t[0] != "false"[0];
    }
  }

  /** What a written value starts with. */
  lemma PrintHead(v: Val, pad: string, o: Format)
    requires Writable(v) && Numeric(v)
    ensures var s := Print(v, pad, o); s != [] && !White(s[0]) && s[0] != ']' && s[0] != '}' && s[0] != ','
  {
    if v.VNum? { NumberChars(v.token); }
  }

  lemma SpaceWhite(o: Format, i: nat, n: nat, pad: string)
    requires FormatOk(o) && AllWhite(pad)
    ensures AllWhite(Space(o, i, pad)) && AllWhite(Trail(o, n, pad)) && AllWhite(pad + o.padding)
  {}

  ghost function Items(v: Val, i: nat): (r: seq<Value>)
    requires v.VArr? && Writable(v) && i <= |v.items|
    ensures |r| == |v.items| - i && forall j :: 0 <= j < |r| ==> r[j] == Meaning(v.items[i + j])
  {
    seq(|v.items| - i, j requires 0 <= j < |v.items| - i => Meaning(v.items[i + j]))
  }

  ghost function Fields(v: Val, i: nat): (r: seq<Field>)
    requires v.VObj? && Writable(v) && i <= |v.fields|
    ensures |r| == |v.fields| - i
    ensures forall j :: 0 <= j < |r| ==> r[j] == Field(v.fields[i + j].name, Meaning(v.fields[i + j].value))
  {
    seq(|v.fields| - i, j requires 0 <= j < |v.fields| - i =>
          Field(v.fields[i + j].name, Meaning(v.fields[i + j].value)))
  }

  /** Reading a written value gives its meaning, in every layout and whatever follows it. */
  lemma {:induction false} PrintReads(v: Val, pad: string, o: Format, rest: string)
    requires Writable(v) && Numeric(v) && FormatOk(o) && AllWhite(pad) && Stop(rest)
    ensures ParseValue(Print(v, pad, o) + rest) == Got(Meaning(v), rest)
    decreases v, 1
  {
    match v
    case VNull => WordReads(rest);
    case VBool(b) => WordReads(rest);
    case VNum(t) => NumberReads(t, rest);
    case VStr(s) => StrReads(s, rest);
    case VArr(items) => ArrReads(v, pad, o, rest);
    case VObj(_, _) => ObjReads(v, pad, o, rest);
  }

  /** After the last element: whitespace, the closing bracket, and the rest. */
  lemma EndReads(w: string, c: char, rest: string)
    requires AllWhite(w) && (c == ']' || c == '}')
    ensures Skip(w + ([c] + rest)) == [c] + rest && Stop(w + ([c] + rest))
  {
    SkipWhite(w, [c] + rest);
    assert w != [] ==> White((w + ([c] + rest))[0]);
  }

  lemma ArrReads(v: Val, pad: string, o: Format, rest: string)
    requires v.VArr? && Writable(v) && Numeric(v) && FormatOk(o) && AllWhite(pad)
    ensures ParseValue(Print(v, pad, o) + rest) == Got(Meaning(v), rest)
    decreases v, 0, |v.items| + 1
  {
    hide *;
    var n, inner, w := |v.items|, pad + o.padding, Trail(o, |v.items|, pad);
    var end := w + ("]" + rest);
    SpaceWhite(o, 0, n, pad);
    ArrText(v, pad, o, rest);
    OpenArr(PrintItems(v, 0, inner, o) + end);
    ArrMeaning(v);
    EndReads(w, ']', rest);
    if n == 0 {
      NoMore(v, inner, o);
      assert PrintItems(v, 0, inner, o) + end == end;
      assert ("]" + rest)[1..] == rest;
    } else {
      NumericItems(v);
      ItemsText(v, 0, inner, o, end);
      ItemsRead(v, 0, inner, o, w, rest);
      SpaceWhite(o, 0, n, inner);
      FirstHead(v.items[0], Space(o, 0, inner), inner, o, PrintItems(v, 1, inner, o) + end);
    }
  }

  lemma ArrMeaning(v: Val)
    requires v.VArr? && Writable(v)
    ensures Meaning(v) == Arr(Items(v, 0)) && (v.items == [] ==> Meaning(v) == Arr([]))
    ensures forall i :: 0 <= i < |v.items| ==> Writable(v.items[i])
  {}

  /** The first element's text does not start with a bracket or brace. */
  lemma FirstHead(v: Val, space: string, pad: string, o: Format, after: string)
    requires Writable(v) && Numeric(v) && AllWhite(space)
    ensures var u := Skip(space + (Print(v, pad, o) + after)); u != [] && u[0] != ']' && u[0] != '}'
  {
    hide Print, Writable, Numeric, AllWhite;
    var x := Print(v, pad, o) + after;
    PrintHead(v, pad, o);
    SkipWhite(space, x);
    assert x[0] == Print(v, pad, o)[0];
  }

  lemma ArrText(v: Val, pad: string, o: Format, rest: string)
    requires v.VArr? && Writable(v)
    ensures Print(v, pad, o) + rest == "[" + (PrintItems(v, 0, pad + o.padding, o) + (Trail(o, |v.items|, pad) + ("]" + rest)))
  {
    Split4("[", PrintItems(v, 0, pad + o.padding, o), Trail(o, |v.items|, pad), "]", rest);
  }

  lemma Split4(a: string, b: string, c: string, d: string, e: string)
    ensures a + b + c + d + e == a + (b + (c + (d + e)))
  {}

  /** The elements from `i` on, as the first of them and the others. */
  lemma ItemsText(v: Val, i: nat, pad: string, o: Format, end: string)
    requires v.VArr? && Writable(v) && i < |v.items|
    ensures PrintItems(v, i, pad, o) + end
            == Comma(i) + (Space(o, i, pad) + (Print(v.items[i], pad, o) + (PrintItems(v, i + 1, pad, o) + end)))
    ensures i == 0 ==> PrintItems(v, i, pad, o) + end
                       == Space(o, i, pad) + (Print(v.items[i], pad, o) + (PrintItems(v, i + 1, pad, o) + end))
  {
    hide Print, Space;
    Split4(Comma(i), Space(o, i, pad), Print(v.items[i], pad, o), PrintItems(v, i + 1, pad, o), end);
    if i == 0 {
      var t := Space(o, i, pad) + (Print(v.items[i], pad, o) + (PrintItems(v, i + 1, pad, o) + end));
      assert "" + t == t;
    }
  }

  /** The text after an opening bracket decides how the array is read. */
  lemma OpenArr(body: string)
    ensures ParseValue("[" + body) ==
            var u := Skip(body);
            if u != [] && u[0] == ']' then Got(Arr([]), u[1..])
            else match ParseItems(body) case Got(xs, rest) => Got(Arr(xs), rest) case Fail => Fail
  {
    var t := "[" + body;
    assert t[1..] == body && Skip(t) == t && t[0] == '[';
    assert !("null" <= t) && !("true" <= t) && !("false" <= t) by {
      assert t[0] != "null"[0] && t[0] != "true"[0] && t[0] != "false"[0];
    }
  }

  lemma ItemLast(s: string, x: Value, after: string, rest: string)
    requires ParseValue(s) == Got(x, after) && Skip(after) == "]" + rest
    ensures ParseItems(s) == Got([x], rest)
  {
    hide ParseValue, Skip;
    assert ("]" + rest)[1..] == rest;
  }

  lemma ItemMore(s: string, x: Value, next: string, xs: seq<Value>, rest: string)
    requires ParseValue(s) == Got(x, "," + next) && ParseItems(next) == Got(xs, rest)
    ensures ParseItems(s) == Got([x] + xs, rest)
  {
    hide ParseValue;
    var t := "," + next;
    assert Skip(t) == t && t[1..] == next;
  }

  lemma CommaStops(next: string)
    ensures Stop("," + next)
  {}

  lemma {:induction false} ItemsRead(v: Val, i: nat, pad: string, o: Format, w: string, rest: string)
    requires v.VArr? && Writable(v) && Numeric(v) && FormatOk(o) && AllWhite(pad) && AllWhite(w) && i < |v.items|
    ensures ParseItems(Space(o, i, pad) + (Print(v.items[i], pad, o) + (PrintItems(v, i + 1, pad, o) + (w + ("]" + rest)))))
            == Got(Items(v, i), rest)
    decreases v, 0, |v.items| - i
  {
    hide *;
    NumericItems(v);
    var end, m := w + ("]" + rest), Meaning(v.items[i]);
    var after := PrintItems(v, i + 1, pad, o) + end;
    var x := Print(v.items[i], pad, o) + after;
    SpaceWhite(o, i, 0, pad);
    WhiteFirst(Space(o, i, pad), x);
    if i + 1 == |v.items| {
      NoMore(v, pad, o);
      assert after == end;
      EndReads(w, ']', rest);
      PrintReads(v.items[i], pad, o, after);
      ItemLast(x, m, after, rest);
      assert Items(v, i) == [m];
    } else {
      ItemsText(v, i + 1, pad, o, end);
      var next := Space(o, i + 1, pad) + (Print(v.items[i + 1], pad, o) + (PrintItems(v, i + 2, pad, o) + end));
      CommaIs(i + 1);
      CommaStops(next);
      PrintReads(v.items[i], pad, o, after);
      ItemsRead(v, i + 1, pad, o, w, rest);
      ItemMore(x, m, next, Items(v, i + 1), rest);
      assert Items(v, i) == [m] + Items(v, i + 1);
    }
  }

  lemma CommaIs(i: nat)
    requires i > 0
    ensures Comma(i) == ","
  {}

  lemma NoMore(v: Val, pad: string, o: Format)
    requires v.VArr? && Writable(v)
    ensures PrintItems(v, |v.items|, pad, o) == ""
  {}

  lemma NumericItems(v: Val)
    requires v.VArr? && Writable(v) && Numeric(v)
    ensures forall i :: 0 <= i < |v.items| ==> Writable(v.items[i]) && Numeric(v.items[i])
  {}

  lemma ObjReads(v: Val, pad: string, o: Format, rest: string)
    requires v.VObj? && Writable(v) && Numeric(v) && FormatOk(o) && AllWhite(pad)
    ensures ParseValue(Print(v, pad, o) + rest) == Got(Meaning(v), rest)
    decreases v, 0, |v.fields| + 1
  {
    hide *;
    var n, inner, w := |v.fields|, pad + o.padding, Trail(o, |v.fields|, pad);
    var end := w + ("}" + rest);
    SpaceWhite(o, 0, n, pad);
    ObjText(v, pad, o, rest);
    OpenObj(PrintFields(v, 0, inner, o) + end);
    ObjMeaning(v);
    EndReads(w, '}', rest);
    NoMoreFields(v, inner, o);
    if n == 0 {
      assert PrintFields(v, 0, inner, o) + end == end;
      assert ("}" + rest)[1..] == rest;
    } else {
      FieldsText(v, 0, inner, o, end);
      FieldsRead(v, 0, inner, o, w, rest);
      SpaceWhite(o, 0, n, inner);
      NameHead(v.fields[0].name, Space(o, 0, inner),
               o.keyValSep + (Print(v.fields[0].value, inner, o) + (PrintFields(v, 1, inner, o) + end)));
    }
  }

  lemma ObjMeaning(v: Val)
    requires v.VObj? && Writable(v) && Numeric(v)
    ensures Meaning(v) == Obj(Fields(v, 0)) && (v.fields == [] ==> Meaning(v) == Obj([]))
    ensures forall i :: 0 <= i < |v.fields| ==> Writable(v.fields[i].value) && Numeric(v.fields[i].value)
  {}

  lemma NameHead(name: string, space: string, after: string)
    requires AllWhite(space)
    ensures var u := Skip(space + (Quoted(name) + after)); u != [] && u[0] != ']' && u[0] != '}'
  {
    hide AllWhite;
    var x := Quoted(name) + after;
    SkipWhite(space, x);
    assert x[0] == '"';
  }

  lemma ObjText(v: Val, pad: string, o: Format, rest: string)
    requires v.VObj? && Writable(v)
    ensures Print(v, pad, o) + rest
            == "{" + (PrintFields(v, 0, pad + o.padding, o) + (Trail(o, |v.fields|, pad) + ("}" + rest)))
  {
    Split4("{", PrintFields(v, 0, pad + o.padding, o), Trail(o, |v.fields|, pad), "}", rest);
  }

  lemma NoMoreFields(v: Val, pad: string, o: Format)
    requires v.VObj? && Writable(v)
    ensures PrintFields(v, |v.fields|, pad, o) == ""
  {}

  lemma OpenObj(body: string)
    ensures ParseValue("{" + body) ==
            var u := Skip(body);
            if u != [] && u[0] == '}' then Got(Obj([]), u[1..])
            else match ParseFields(body) case Got(fs, rest) => Got(Obj(fs), rest) case Fail => Fail
  {
    var t := "{" + body;
    assert t[1..] == body && Skip(t) == t && t[0] == '{';
    assert !("null" <= t) && !("true" <= t) && !("false" <= t) by {
      assert t[0] != "null"[0] && t[0] != "true"[0] && t[0] != "false"[0];
    }
  }

  lemma FieldsText(v: Val, i: nat, pad: string, o: Format, end: string)
    requires v.VObj? && Writable(v) && i < |v.fields|
    ensures var f := v.fields[i];
            var t := Space(o, i, pad)
                     + (Quoted(f.name) + (o.keyValSep + (Print(f.value, pad, o) + (PrintFields(v, i + 1, pad, o) + end))));
            PrintFields(v, i, pad, o) + end == Comma(i) + t && (i == 0 ==> PrintFields(v, i, pad, o) + end == t)
  {
    hide Print, Space, Quoted;
    var f := v.fields[i];
    Split4(Comma(i), Space(o, i, pad), Quoted(f.name) + o.keyValSep, Print(f.value, pad, o),
           PrintFields(v, i + 1, pad, o));
    FieldSplit(Comma(i), Space(o, i, pad), Quoted(f.name), o.keyValSep, Print(f.value, pad, o),
               PrintFields(v, i + 1, pad, o), end);
    if i == 0 {
      var t := Space(o, i, pad)
               + (Quoted(f.name) + (o.keyValSep + (Print(f.value, pad, o) + (PrintFields(v, i + 1, pad, o) + end))));
      assert "" + t == t;
    }
  }

  lemma FieldSplit(a: string, b: string, c: string, d: string, e: string, f: string, g: string)
    ensures a + b + (c + d) + e + f + g == a + (b + (c + (d + (e + (f + g)))))
  {}

  /** A name up to its colon, after whitespace. */
  lemma NameReads(space: string, name: string, o: Format, x: string)
    requires AllWhite(space) && FormatOk(o)
    ensures ParseName(space + (Quoted(name) + (o.keyValSep + x))).Got?
    ensures var r := ParseName(space + (Quoted(name) + (o.keyValSep + x)));
            r.v == name && exists gap :: AllWhite(gap) && r.rest == gap + x
  {
    hide Quoted, Skip, ParseName, ParseString;
    var after := o.keyValSep + x;
    WhiteFirst(space, Quoted(name) + after);
    QuotedReads(name, after);
    var colon := Skip(o.keyValSep);
    var gap := colon[1..];
    SkipKeeps(o.keyValSep, x);
    assert colon == ":" + gap;
    Assoc(":", gap, x);
    NameParse(Quoted(name) + after, name, after, gap + x);
  }

  lemma NameParse(t: string, name: string, after: string, rest: string)
    requires t != [] && t[0] == '"' && ParseString(t[1..]) == Got(name, after) && Skip(after) == ":" + rest
    ensures ParseName(t) == Got(name, rest)
  {
    hide ParseString;
    assert Skip(t) == t && (":" + rest)[1..] == rest;
  }

  /** Skipping stops inside a text that is not all whitespace. */
  lemma {:induction false} SkipKeeps(s: string, x: string)
    requires Skip(s) != []
    ensures Skip(s + x) == Skip(s) + x
  {
    if White(s[0]) {
      SkipKeeps(s[1..], x);
      assert (s + x)[1..] == s[1..] + x;
    }
  }

  lemma FieldLast(s: string, name: string, colon: string, x: Value, after: string, rest: string)
    requires ParseName(s) == Got(name, colon) && ParseValue(colon) == Got(x, after) && Skip(after) == "}" + rest
    ensures ParseFields(s) == Got([Field(name, x)], rest)
  {
    hide ParseValue, ParseName, Skip;
    assert ("}" + rest)[1..] == rest;
  }

  lemma FieldMore(s: string, name: string, colon: string, x: Value, next: string, fs: seq<Field>, rest: string)
    requires ParseName(s) == Got(name, colon) && ParseValue(colon) == Got(x, "," + next)
    requires ParseFields(next) == Got(fs, rest)
    ensures ParseFields(s) == Got([Field(name, x)] + fs, rest)
  {
    hide ParseValue, ParseName;
    var t := "," + next;
    assert Skip(t) == t && t[1..] == next;
  }

  lemma {:induction false} FieldsRead(v: Val, i: nat, pad: string, o: Format, w: string, rest: string)
    requires v.VObj? && Writable(v) && Numeric(v) && FormatOk(o) && AllWhite(pad) && AllWhite(w) && i < |v.fields|
    ensures var f := v.fields[i];
            ParseFields(Space(o, i, pad)
                        + (Quoted(f.name)
                           + (o.keyValSep + (Print(f.value, pad, o) + (PrintFields(v, i + 1, pad, o) + (w + ("}" + rest)))))))
            == Got(Fields(v, i), rest)
    decreases v, 0, |v.fields| - i
  {
    hide *;
    ObjMeaning(v);
    var f, end := v.fields[i], w + ("}" + rest);
    var m, after := Meaning(f.value), PrintFields(v, i + 1, pad, o) + end;
    var x := Print(f.value, pad, o) + after;
    var s := Space(o, i, pad) + (Quoted(f.name) + (o.keyValSep + x));
    SpaceWhite(o, i, 0, pad);
    NameReads(Space(o, i, pad), f.name, o, x);
    var colon := ParseName(s).rest;
    var gap :| AllWhite(gap) && colon == gap + x;
    WhiteFirst(gap, x);
    if i + 1 == |v.fields| {
      NoMoreFields(v, pad, o);
      assert after == end;
      EndReads(w, '}', rest);
      PrintReads(f.value, pad, o, after);
      FieldLast(s, f.name, colon, m, after, rest);
      assert Fields(v, i) == [Field(f.name, m)];
    } else {
      FieldsText(v, i + 1, pad, o, end);
      var g := v.fields[i + 1];
      var next := Space(o, i + 1, pad)
                  + (Quoted(g.name) + (o.keyValSep + (Print(g.value, pad, o) + (PrintFields(v, i + 2, pad, o) + end))));
      CommaIs(i + 1);
      CommaStops(next);
      PrintReads(f.value, pad, o, after);
      FieldsRead(v, i + 1, pad, o, w, rest);
      FieldMore(s, f.name, colon, m, next, Fields(v, i + 1), rest);
      assert Fields(v, i) == [Field(f.name, m)] + Fields(v, i + 1);
    }
  }

  /** The whole text written at the top, in any layout, is a JSON text for the value. */
  lemma RoundTrip(v: Val, o: Format)
    requires Writable(v) && Numeric(v) && FormatOk(o)
    ensures ParseText(Print(v, "", o)) == Some(Meaning(v))
  {
    PrintReads(v, "", o, "");
    assert Print(v, "", o) + "" == Print(v, "", o);
  }

  // ---------------------------------------------------------------- layouts

  /** A text without its insignificant whitespace: strings are kept as they are. */
  function Squeeze(s: string): string
    decreases |s|
  {
    if s == [] then []
    else if White(s[0]) then Squeeze(s[1..])
    else if s[0] != '"' then [s[0]] + Squeeze(s[1..])
    else
      var n := Close(s[1..], '"');
      if n.None? || n.value + 2 > |s| then s else s[..n.value + 2] + Squeeze(s[n.value + 2..])
  }

  function Mini(): Format {
    Format(Minify, "", "\n", ":")
  }

  lemma {:induction false} SqueezeWhite(w: string, x: string)
    requires AllWhite(w)
    ensures Squeeze(w + x) == Squeeze(x)
  {
    if w == [] {
      assert w + x == x;
    } else {
      SqueezeWhite(w[1..], x);
      assert (w + x)[1..] == w[1..] + x;
    }
  }

  /** Neither whitespace nor a quote. */
  ghost predicate Solid(t: string) {
    forall i :: 0 <= i < |t| ==> !White(t[i]) && t[i] != '"'
  }

  lemma {:induction false} SqueezeSolid(t: string, x: string)
    requires Solid(t)
    ensures Squeeze(t + x) == t + Squeeze(x)
  {
    if t == [] {
      assert t + x == x && t + Squeeze(x) == Squeeze(x);
    } else {
      SqueezeSolid(t[1..], x);
      assert (t + x)[1..] == t[1..] + x;
      assert [t[0]] + (t[1..] + Squeeze(x)) == t + Squeeze(x);
    }
  }

  lemma SqueezeQuoted(name: string, x: string)
    ensures Squeeze(Quoted(name) + x) == Quoted(name) + Squeeze(x)
  {
    var e := EscapeChars(name);
    var s := Quoted(name) + x;
    EscapeCloses(name, x);
    hide EscapeChars, Close;
    assert s[1..] == e + (['"'] + x);
    assert s[..|e| + 2] == Quoted(name) && s[|e| + 2..] == x && s[0] == '"';
  }

  lemma SqueezeSep(o: Format, x: string)
    requires FormatOk(o)
    ensures Squeeze(o.keyValSep + x) == ":" + Squeeze(x)
  {
    var colon := Skip(o.keyValSep);
    hide Skip;
    assert colon == ":" + colon[1..];
    SqueezeSkip(o.keyValSep, x);
    Assoc(":", colon[1..], x);
    SqueezeSolid(":", colon[1..] + x);
    SqueezeWhite(colon[1..], x);
  }

  lemma {:induction false} SqueezeSkip(s: string, x: string)
    ensures Squeeze(s + x) == Squeeze(Skip(s) + x)
  {
    if s != [] && White(s[0]) {
      SqueezeSkip(s[1..], x);
      assert (s + x)[1..] == s[1..] + x;
    }
  }

  /** Layouts differ only in insignificant whitespace. */
  lemma {:induction false} SqueezePrint(v: Val, pad: string, o: Format, x: string)
    requires Writable(v) && Numeric(v) && FormatOk(o) && AllWhite(pad)
    ensures Squeeze(Print(v, pad, o) + x) == Print(v, "", Mini()) + Squeeze(x)
    decreases v, 1
  {
    hide Print, Squeeze;
    if v.VArr? {
      SqueezeArr(v, pad, o, x);
    } else if v.VObj? {
      SqueezeObj(v, pad, o, x);
    } else {
      SqueezeLeaf(v, pad, o, x);
    }
  }

  lemma SqueezeLeaf(v: Val, pad: string, o: Format, x: string)
    requires Writable(v) && Numeric(v) && !v.VArr? && !v.VObj?
    ensures Squeeze(Print(v, pad, o) + x) == Print(v, "", Mini()) + Squeeze(x)
  {
    assert Print(v, pad, o) == Print(v, "", Mini());
    if v.VStr? {
      SqueezeQuoted(v.s, x);
    } else {
      LeafSolid(v, pad, o);
      hide Print;
      SqueezeSolid(Print(v, pad, o), x);
    }
  }

  lemma LeafSolid(v: Val, pad: string, o: Format)
    requires Writable(v) && Numeric(v) && (v.VNull? || v.VBool? || v.VNum?)
    ensures Solid(Print(v, pad, o))
  {
    if v.VNum? { NumberChars(v.token); }
  }

  lemma SqueezeEnd(w: string, c: string, x: string)
    requires AllWhite(w) && Solid(c)
    ensures Squeeze(w + (c + x)) == c + Squeeze(x)
  {
    SqueezeWhite(w, c + x);
    SqueezeSolid(c, x);
  }

  lemma SqueezeArr(v: Val, pad: string, o: Format, x: string)
    requires v.VArr? && Writable(v) && Numeric(v) && FormatOk(o) && AllWhite(pad)
    ensures Squeeze(Print(v, pad, o) + x) == Print(v, "", Mini()) + Squeeze(x)
    decreases v, 0, |v.items| + 1
  {
    Brackets();
    hide *;
    var inner, w := pad + o.padding, Trail(o, |v.items|, pad);
    var end := w + ("]" + x);
    SpaceWhite(o, 0, |v.items|, pad);
    ArrText(v, pad, o, x);
    SqueezeSolid("[", PrintItems(v, 0, inner, o) + end);
    SqueezeItems(v, 0, inner, o, end);
    SqueezeEnd(w, "]", x);
    MiniArr(v, Squeeze(x));
  }

  lemma Brackets()
    ensures Solid("[") && Solid("]") && Solid("{") && Solid("}") && Solid(",")
    ensures Mini() == Format(Minify, "", "\n", ":") && "" + "" == ""
  {}

  lemma MiniArr(v: Val, rest: string)
    requires v.VArr? && Writable(v)
    ensures "[" + (PrintItems(v, 0, "", Mini()) + ("]" + rest)) == Print(v, "", Mini()) + rest
  {
    ArrText(v, "", Mini(), rest);
    assert "" + ("]" + rest) == "]" + rest && "" + "" == "";
  }

  lemma SqueezeLead(o: Format, i: nat, pad: string, x: string)
    requires FormatOk(o) && AllWhite(pad)
    ensures Squeeze(Comma(i) + (Space(o, i, pad) + x)) == Comma(i) + Squeeze(x)
    ensures Space(Mini(), i, "") == ""
  {
    Brackets();
    SpaceWhite(o, i, 0, pad);
    hide Squeeze, AllWhite;
    SqueezeWhite(Space(o, i, pad), x);
    SqueezeSolid(Comma(i), Space(o, i, pad) + x);
  }

  lemma {:induction false} SqueezeItems(v: Val, i: nat, pad: string, o: Format, end: string)
    requires v.VArr? && Writable(v) && Numeric(v) && FormatOk(o) && AllWhite(pad) && i <= |v.items|
    ensures Squeeze(PrintItems(v, i, pad, o) + end) == PrintItems(v, i, "", Mini()) + Squeeze(end)
    decreases v, 0, |v.items| - i
  {
    hide *;
    NumericItems(v);
    if i == |v.items| {
      NoMore(v, pad, o);
      NoMore(v, "", Mini());
      assert "" + end == end && "" + Squeeze(end) == Squeeze(end);
    } else {
      var after := PrintItems(v, i + 1, pad, o) + end;
      ItemsText(v, i, pad, o, end);
      ItemsText(v, i, "", Mini(), Squeeze(end));
      SqueezeLead(o, i, pad, Print(v.items[i], pad, o) + after);
      SqueezePrint(v.items[i], pad, o, after);
      SqueezeItems(v, i + 1, pad, o, end);
      var y := Print(v.items[i], "", Mini()) + (PrintItems(v, i + 1, "", Mini()) + Squeeze(end));
      assert "" + y == y;
    }
  }

  lemma SqueezeObj(v: Val, pad: string, o: Format, x: string)
    requires v.VObj? && Writable(v) && Numeric(v) && FormatOk(o) && AllWhite(pad)
    ensures Squeeze(Print(v, pad, o) + x) == Print(v, "", Mini()) + Squeeze(x)
    decreases v, 0, |v.fields| + 1
  {
    Brackets();
    hide *;
    var inner, w := pad + o.padding, Trail(o, |v.fields|, pad);
    var end := w + ("}" + x);
    SpaceWhite(o, 0, |v.fields|, pad);
    ObjText(v, pad, o, x);
    SqueezeSolid("{", PrintFields(v, 0, inner, o) + end);
    SqueezeFields(v, 0, inner, o, end);
    SqueezeEnd(w, "}", x);
    MiniObj(v, Squeeze(x));
  }

  lemma MiniObj(v: Val, rest: string)
    requires v.VObj? && Writable(v)
    ensures "{" + (PrintFields(v, 0, "", Mini()) + ("}" + rest)) == Print(v, "", Mini()) + rest
  {
    ObjText(v, "", Mini(), rest);
    assert "" + ("}" + rest) == "}" + rest && "" + "" == "";
  }

  lemma {:induction false} SqueezeFields(v: Val, i: nat, pad: string, o: Format, end: string)
    requires v.VObj? && Writable(v) && Numeric(v) && FormatOk(o) && AllWhite(pad) && i <= |v.fields|
    ensures Squeeze(PrintFields(v, i, pad, o) + end) == PrintFields(v, i, "", Mini()) + Squeeze(end)
    decreases v, 0, |v.fields| - i
  {
    Brackets();
    hide *;
    ObjMeaning(v);
    if i == |v.fields| {
      NoMoreFields(v, pad, o);
      NoMoreFields(v, "", Mini());
      assert "" + end == end && "" + Squeeze(end) == Squeeze(end);
    } else {
      var f, after := v.fields[i], PrintFields(v, i + 1, pad, o) + end;
      var x := Print(f.value, pad, o) + after;
      FieldsText(v, i, pad, o, end);
      FieldsText(v, i, "", Mini(), Squeeze(end));
      SqueezeLead(o, i, pad, Quoted(f.name) + (o.keyValSep + x));
      SqueezeQuoted(f.name, o.keyValSep + x);
      SqueezeSep(o, x);
      SqueezePrint(f.value, pad, o, after);
      SqueezeFields(v, i + 1, pad, o, end);
      var y := Quoted(f.name) + (":" + (Print(f.value, "", Mini()) + (PrintFields(v, i + 1, "", Mini()) + Squeeze(end))));
      assert "" + y == y;
    }
  }

  /** Without insignificant whitespace every layout is the minified text. */
  lemma LayoutsAgree(v: Val, o: Format)
    requires Writable(v) && Numeric(v) && FormatOk(o)
    ensures Squeeze(Print(v, "", o)) == Print(v, "", Mini())
  {
    hide Print, Squeeze;
    SqueezePrint(v, "", o, "");
    assert Print(v, "", o) + "" == Print(v, "", o);
    assert Print(v, "", Mini()) + Squeeze("") == Print(v, "", Mini()) by { Joins(); }
  }

  lemma Joins()
    ensures Squeeze("") == ""
  {}
}
