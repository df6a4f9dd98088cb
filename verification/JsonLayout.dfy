/** What the layouts of JSON output look like, told from the text alone: a walk over its characters
    that only counts open brackets. */
module JsonLayout {
  import opened Options
  import opened Escapes
  import opened Json
  import T = Text

  predicate Opens(c: char) { c == '[' || c == '{' }

  predicate Closes(c: char) { c == ']' || c == '}' }

  function Closer(c: char): char { if c == '[' then ']' else '}' }

  /** Layouts with an element to a line. */
  predicate Lined(o: Format) { o.layout == Manifest || o.layout == Std }

  function Indent(padding: string, d: nat): string { if d == 0 then "" else Indent(padding, d - 1) + padding }

  /** What stands between the brackets of an empty container inside `d` others. */
  function Gap(o: Format, d: nat): string {
    match o.layout
    case Manifest => " "
    case ToString => " "
    case Std => "\n\n" + Indent(o.padding, d)
    case Minify => ""
  }

  /** A line inside `d` brackets: the padding once for each of them, one fewer before a closing bracket,
      and then no more whitespace. */
  predicate LineOk(t: string, d: nat, padding: string) {
    || (Indent(padding, d) <= t && var u := t[|Indent(padding, d)|..]; u != [] && !White(u[0]) && !Closes(u[0]))
    || (d > 0 && Indent(padding, d - 1) <= t && var u := t[|Indent(padding, d - 1)|..]; u != [] && Closes(u[0]))
  }

  /** How a text goes on after `gap` blanks with something that is not whitespace. */
  predicate After(t: string, gap: nat) {
    |t| > gap && !White(t[gap]) && forall i :: 0 <= i < gap ==> t[i] == ' '
  }

  /** The text `t`, inside `d` brackets, is laid out as `o` says. With `bare`, nothing but blanks stands
      before it on its line. Strings are skipped as a whole. Elements and the closing brackets of
      non-empty containers begin lines, or there are no lines, with one blank after commas and colons
      in ToString and no whitespace at all in Minify. */
  predicate Laid(t: string, d: nat, bare: bool, o: Format)
    decreases |t|
  {
    if t == [] then d == 0
    else if t[0] == '"' then
      match ParseString(t[1..])
      case Got(_, rest) => Laid(rest, d, false, o)
      case Fail => false
    else if Opens(t[0]) then
      var empty := Gap(o, d) + [Closer(t[0])];
      if empty <= t[1..] then Laid(t[1..][|empty|..], d, false, o)
      else if Lined(o) then |t| > 1 && t[1] == '\n' && Laid(t[1..], d + 1, false, o)
      else After(t[1..], 0) && !Closes(t[1]) && Laid(t[1..], d + 1, false, o)
    else if Closes(t[0]) then d > 0 && (Lined(o) ==> bare) && Laid(t[1..], d - 1, false, o)
    else if t[0] == ',' && Lined(o) then |t| > 1 && t[1] == '\n' && Laid(t[1..], d, false, o)
    else if t[0] == ',' || (t[0] == ':' && !Lined(o)) then
      var gap := if o.layout == ToString then 1 else 0;
      After(t[1..], gap) && Laid(t[1..][gap..], d, false, o)
    else if t[0] == '\n' then Lined(o) && LineOk(t[1..], d, o.padding) && Laid(t[1..], d, true, o)
    else if White(t[0]) then Lined(o) && Laid(t[1..], d, bare, o)
    else Laid(t[1..], d, false, o)
  }

  /** Lines end with a line feed and nowhere else, and the flat layouts use their own separators. */
  ghost predicate Usual(o: Format) {
    && FormatOk(o) && o.newline == "\n" && '\n' !in o.padding && '\n' !in o.keyValSep
    && (o.layout == ToString ==> o.keyValSep == ": ") && (o.layout == Minify ==> o.keyValSep == ":")
  }

  // ---------------------------------------------------------------- one piece of text

  /** How a value or a name begins. */
  predicate Head(x: string) { x != [] && !White(x[0]) && !Closes(x[0]) }

  predicate Plain(c: char) {
    !White(c) && c != '"' && !Opens(c) && !Closes(c) && c != ',' && c != ':'
  }

  lemma {:induction false} LaidPlain(t: string, x: string, d: nat, bare: bool, o: Format)
    requires t != [] && (forall i :: 0 <= i < |t| ==> Plain(t[i])) && Laid(x, d, false, o)
    ensures Laid(t + x, d, bare, o)
    decreases |t|
  {
    assert (t + x)[1..] == t[1..] + x;
    if |t| == 1 { assert t[1..] + x == x; } else { LaidPlain(t[1..], x, d, false, o); }
  }

  lemma LaidQuoted(s: string, x: string, d: nat, bare: bool, o: Format)
    requires Laid(x, d, false, o)
    ensures Laid(Quoted(s) + x, d, bare, o) && Head(Quoted(s) + x)
  {
    QuotedReads(s, x);
    hide ParseString, EscapeChars;
    assert (Quoted(s) + x)[0] == '"';
  }

  /** Blanks, as in a separator or in the padding of a line. */
  lemma {:induction false} LaidBlanks(w: string, x: string, d: nat, bare: bool, o: Format)
    requires Lined(o) && AllWhite(w) && '\n' !in w && Laid(x, d, bare, o)
    ensures Laid(w + x, d, bare, o)
    decreases |w|
  {
    if w == [] {
      assert w + x == x;
    } else {
      assert (w + x)[1..] == w[1..] + x && '\n' !in w[1..];
      LaidBlanks(w[1..], x, d, bare, o);
    }
  }

  lemma StepColon(x: string, d: nat, bare: bool, o: Format)
    requires Lined(o) && Laid(x, d, false, o)
    ensures Laid([':'] + x, d, bare, o)
  {
    assert ([':'] + x)[1..] == x;
  }

  lemma StepFlat(c: char, x: string, d: nat, bare: bool, o: Format)
    requires !Lined(o) && (c == ':' || c == ',') && Head(x) && Laid(x, d, false, o)
    ensures Laid([c] + ((if o.layout == ToString then " " else "") + x), d, bare, o)
  {
    var y := (if o.layout == ToString then " " else "") + x;
    assert ([c] + y)[1..] == y;
    if o.layout == ToString { assert y[1..] == x; } else { assert y == x && y[0..] == x; }
  }

  lemma StepComma(x: string, d: nat, bare: bool, o: Format)
    requires Lined(o) && x != [] && x[0] == '\n' && Laid(x, d, false, o)
    ensures Laid([','] + x, d, bare, o)
  {
    assert ([','] + x)[1..] == x;
  }

  lemma StepLine(x: string, d: nat, bare: bool, o: Format)
    requires Lined(o) && LineOk(x, d, o.padding) && Laid(x, d, true, o)
    ensures Laid("\n" + x, d, bare, o)
  {
    assert ("\n" + x)[1..] == x;
  }

  lemma StepClose(c: char, x: string, d: nat, bare: bool, o: Format)
    requires Closes(c) && (Lined(o) ==> bare) && Laid(x, d, false, o)
    ensures Laid([c] + x, d + 1, bare, o)
  {
    assert ([c] + x)[1..] == x;
  }

  lemma StepOpen(b: char, x: string, d: nat, bare: bool, o: Format)
    requires Opens(b) && x != [] && !(Gap(o, d) + [Closer(b)] <= x) && Laid(x, d + 1, false, o)
    requires if Lined(o) then x[0] == '\n' else Head(x)
    ensures Laid([b] + x, d, bare, o)
  {
    hide Gap;
    assert ([b] + x)[1..] == x && ([b] + x)[1] == x[0];
  }

  lemma StepEmpty(b: char, x: string, d: nat, bare: bool, o: Format)
    requires Opens(b) && Laid(x, d, false, o)
    ensures Laid([b] + (Gap(o, d) + [Closer(b)] + x), d, bare, o)
  {
    hide Gap;
    var empty := Gap(o, d) + [Closer(b)];
    assert ([b] + (empty + x))[1..] == empty + x && (empty + x)[|empty|..] == x;
  }

  lemma LaidSeparator(x: string, d: nat, o: Format)
    requires Usual(o) && Head(x) && Laid(x, d, false, o)
    ensures Laid(o.keyValSep + x, d, false, o)
  {
    hide Laid;
    if Lined(o) {
      LaidAround(o.keyValSep, x, d, o);
    } else {
      StepFlat(':', x, d, false, o);
      assert o.keyValSep + x == [':'] + ((if o.layout == ToString then " " else "") + x);
    }
  }

  lemma LaidAround(sep: string, x: string, d: nat, o: Format)
    requires Lined(o) && Laid(x, d, false, o) && '\n' !in sep
    requires Skip(sep) != [] && Skip(sep)[0] == ':' && AllWhite(Skip(sep)[1..])
    ensures Laid(sep + x, d, false, o)
  {
    hide Laid, Skip, AllWhite;
    SkipSplits(sep);
    var n, w := |sep| - |Skip(sep)|, Skip(sep)[1..];
    LaidBlanks(w, x, d, false, o);
    StepColon(w + x, d, false, o);
    LaidBlanks(sep[..n], [':'] + (w + x), d, false, o);
    assert sep + x == sep[..n] + ([':'] + (w + x));
  }

  lemma {:induction false} SkipSplits(s: string)
    ensures var n := |s| - |Skip(s)|; AllWhite(s[..n]) && s[n..] == Skip(s)
    ensures Skip(s) != [] && '\n' !in s ==> '\n' !in Skip(s)[1..] && '\n' !in s[..|s| - |Skip(s)|]
    decreases |s|
  {
    if s != [] && White(s[0]) {
      SkipSplits(s[1..]);
      var n := |s| - |Skip(s)|;
      assert s[..n] == [s[0]] + s[1..][..n - 1] && s[n..] == s[1..][n - 1..];
    }
  }

  /** A new line inside `d` brackets. */
  lemma LaidLine(x: string, d: nat, o: Format, bare: bool)
    requires Usual(o) && Lined(o) && Head(x) && Laid(x, d, true, o)
    ensures Laid("\n" + (Indent(o.padding, d) + x), d, bare, o)
  {
    hide Laid;
    var y := Indent(o.padding, d) + x;
    IndentBlank(o.padding, d);
    LaidBlanks(Indent(o.padding, d), x, d, true, o);
    assert y[|Indent(o.padding, d)|..] == x;
    StepLine(y, d, bare, o);
  }

  lemma {:induction false} IndentBlank(padding: string, d: nat)
    requires AllWhite(padding) && '\n' !in padding
    ensures AllWhite(Indent(padding, d)) && '\n' !in Indent(padding, d)
    decreases d
  {
    if d > 0 { IndentBlank(padding, d - 1); }
  }

  /** Before element `i`: a comma unless it is the first, then a line, a blank or nothing. */
  lemma LaidLead(i: nat, x: string, d: nat, o: Format)
    requires Usual(o) && Head(x) && Laid(x, d, true, o) && Laid(x, d, false, o)
    ensures Laid(Comma(i) + (Space(o, i, Indent(o.padding, d)) + x), d, false, o)
  {
    hide Laid, Indent;
    var y := Space(o, i, Indent(o.padding, d)) + x;
    if Lined(o) {
      LaidLine(x, d, o, false);
      assert y == "\n" + (Indent(o.padding, d) + x);
      if i > 0 { StepComma(y, d, false, o); }
    } else if i > 0 {
      StepFlat(',', x, d, false, o);
      assert y == (if o.layout == ToString then " " else "") + x;
    } else {
      assert y == x;
    }
    if i == 0 { assert "" + y == y; } else { assert Comma(i) == [',']; }
  }

  /** After the last element. */
  lemma LaidEnd(n: nat, c: char, x: string, d: nat, o: Format)
    requires Usual(o) && n > 0 && Closes(c) && Laid(x, d, false, o)
    ensures Laid(Trail(o, n, Indent(o.padding, d)) + ([c] + x), d + 1, false, o)
  {
    hide Laid, Indent, White;
    var end, pad := [c] + x, Indent(o.padding, d);
    StepClose(c, x, d, Lined(o), o);
    if Lined(o) {
      IndentBlank(o.padding, d);
      LaidBlanks(pad, end, d + 1, true, o);
      ClosingLine(pad, c, x, d, o.padding);
      StepLine(pad + end, d + 1, false, o);
      assert Trail(o, n, pad) == "\n" + pad;
      assert "\n" + pad + end == "\n" + (pad + end);
    } else {
      assert Trail(o, n, pad) + end == end;
    }
  }

  lemma ClosingLine(pad: string, c: char, x: string, d: nat, padding: string)
    requires Closes(c) && pad == Indent(padding, d)
    ensures LineOk(pad + ([c] + x), d + 1, padding)
  {
    assert (pad + ([c] + x))[|pad|..] == [c] + x;
  }

  lemma LaidEmpty(b: char, x: string, d: nat, bare: bool, o: Format)
    requires Usual(o) && Opens(b) && Laid(x, d, false, o)
    ensures Laid([b] + (Trail(o, 0, Indent(o.padding, d)) + ([Closer(b)] + x)), d, bare, o)
  {
    hide Laid, Indent;
    StepEmpty(b, x, d, bare, o);
    assert Trail(o, 0, Indent(o.padding, d)) == Gap(o, d);
    assert Gap(o, d) + [Closer(b)] + x == Gap(o, d) + ([Closer(b)] + x);
  }

  /** An opening bracket before the first element. */
  lemma LaidOpen(b: char, x: string, d: nat, bare: bool, o: Format)
    requires Usual(o) && Opens(b) && Head(x)
    requires var y := Space(o, 0, Indent(o.padding, d + 1)) + x; Laid(y, d + 1, false, o)
    ensures Laid([b] + (Space(o, 0, Indent(o.padding, d + 1)) + x), d, bare, o)
  {
    hide Laid, Indent, AllWhite;
    var y := Space(o, 0, Indent(o.padding, d + 1)) + x;
    var empty := Gap(o, d) + [Closer(b)];
    IndentBlank(o.padding, d + 1);
    assert !(empty <= y) by {
      if Lined(o) {
        var z := Indent(o.padding, d + 1) + x;
        assert y == "\n" + z && y[1] == z[0] && z[0] != '\n';
        assert o.layout == Manifest ==> empty[0] == ' ';
        assert o.layout == Std ==> empty[1] == '\n';
      } else {
        assert y == x && (empty[0] == ' ' || empty[0] == Closer(b));
      }
    }
    if !Lined(o) { assert y == x; }
    StepOpen(b, y, d, bare, o);
  }

  // ---------------------------------------------------------------- values

  lemma HeadOf(v: Val, pad: string, o: Format, x: string)
    requires Writable(v) && Numeric(v)
    ensures Head(Print(v, pad, o) + x)
  {
    PrintHead(v, pad, o);
    hide Print;
    assert (Print(v, pad, o) + x)[0] == Print(v, pad, o)[0];
  }

  /** A value written inside `d` brackets is laid out, if what follows it is. */
  lemma {:induction false} LaidValue(v: Val, x: string, d: nat, bare: bool, o: Format)
    requires Writable(v) && Numeric(v) && Usual(o) && Laid(x, d, false, o)
    ensures Laid(Print(v, Indent(o.padding, d), o) + x, d, bare, o)
    decreases v, 1
  {
    hide Laid, Usual, Quoted, Print, PrintItems, PrintFields;
    if v.VArr? {
      LaidArr(v, x, d, bare, o);
    } else if v.VObj? {
      LaidObj(v, x, d, bare, o);
    } else {
      LaidLeaf(v, x, d, bare, o);
    }
  }

  lemma LaidLeaf(v: Val, x: string, d: nat, bare: bool, o: Format)
    requires Writable(v) && Numeric(v) && !v.VArr? && !v.VObj? && Laid(x, d, false, o)
    ensures Laid(Print(v, Indent(o.padding, d), o) + x, d, bare, o)
  {
    hide Laid, Quoted, Print;
    LeafIs(v, Indent(o.padding, d), o);
    if v.VStr? { LaidQuoted(v.s, x, d, bare, o); } else { LaidPlain(Print(v, Indent(o.padding, d), o), x, d, bare, o); }
  }

  lemma LeafIs(v: Val, pad: string, o: Format)
    requires Writable(v) && Numeric(v) && !v.VArr? && !v.VObj?
    ensures v.VStr? ==> Print(v, pad, o) == Quoted(v.s)
    ensures !v.VStr? ==> var t := Print(v, pad, o); t != [] && forall i :: 0 <= i < |t| ==> Plain(t[i])
  {
    hide Quoted, IsNumber, Plain, PrintItems, PrintFields;
    if v.VNum? {
      NumberChars(v.token);
      PlainNumber(v.token);
    }
    PlainWords();
  }

  lemma PlainNumber(t: string)
    requires NumChars(t)
    ensures forall i :: 0 <= i < |t| ==> Plain(t[i])
  {
    forall i | 0 <= i < |t| ensures Plain(t[i]) { assert NumChar(t[i]); }
  }

  lemma PlainWords()
    ensures forall i :: 0 <= i < 4 ==> Plain("null"[i]) && Plain("true"[i])
    ensures forall i :: 0 <= i < 5 ==> Plain("false"[i])
  {}

  lemma IndentMore(padding: string, d: nat)
    ensures Indent(padding, d + 1) == Indent(padding, d) + padding
  {}

  lemma LaidArr(v: Val, x: string, d: nat, bare: bool, o: Format)
    requires v.VArr? && Writable(v) && Numeric(v) && Usual(o) && Laid(x, d, false, o)
    ensures Laid(Print(v, Indent(o.padding, d), o) + x, d, bare, o)
    decreases v, 0, |v.items| + 1
  {
    hide *;
    Brackets();
    var pad, n := Indent(o.padding, d), |v.items|;
    var end := Trail(o, n, pad) + ([']'] + x);
    IndentMore(o.padding, d);
    var inner := Indent(o.padding, d + 1);
    ArrText(v, pad, o, x);
    NumericItems(v);
    if n == 0 {
      NoMore(v, inner, o);
      assert "" + end == end;
      LaidEmpty('[', x, d, bare, o);
    } else {
      LaidEnd(n, ']', x, d, o);
      LaidItems(v, 0, end, d + 1, o);
      ItemsText(v, 0, inner, o, end);
      HeadOf(v.items[0], inner, o, PrintItems(v, 1, inner, o) + end);
      LaidOpen('[', Print(v.items[0], inner, o) + (PrintItems(v, 1, inner, o) + end), d, bare, o);
    }
  }

  lemma Brackets()
    ensures Opens('[') && Opens('{') && Closes(']') && Closes('}') && Closer('[') == ']' && Closer('{') == '}'
    ensures "[" == ['['] && "]" == [']'] && "{" == ['{'] && "}" == ['}']
  {}

  lemma {:induction false} LaidItems(v: Val, i: nat, end: string, d: nat, o: Format)
    requires v.VArr? && Writable(v) && Numeric(v) && Usual(o) && i <= |v.items| && Laid(end, d, false, o)
    ensures Laid(PrintItems(v, i, Indent(o.padding, d), o) + end, d, false, o)
    decreases v, 0, |v.items| - i
  {
    hide *;
    NumericItems(v);
    var pad := Indent(o.padding, d);
    if i == |v.items| {
      NoMore(v, pad, o);
      assert "" + end == end;
    } else {
      var after := PrintItems(v, i + 1, pad, o) + end;
      LaidItems(v, i + 1, end, d, o);
      LaidValue(v.items[i], after, d, true, o);
      LaidValue(v.items[i], after, d, false, o);
      HeadOf(v.items[i], pad, o, after);
      LaidLead(i, Print(v.items[i], pad, o) + after, d, o);
      ItemsText(v, i, pad, o, end);
    }
  }

  lemma LaidObj(v: Val, x: string, d: nat, bare: bool, o: Format)
    requires v.VObj? && Writable(v) && Numeric(v) && Usual(o) && Laid(x, d, false, o)
    ensures Laid(Print(v, Indent(o.padding, d), o) + x, d, bare, o)
    decreases v, 0, |v.fields| + 1
  {
    hide *;
    Brackets();
    var pad, n := Indent(o.padding, d), |v.fields|;
    var end := Trail(o, n, pad) + (['}'] + x);
    IndentMore(o.padding, d);
    var inner := Indent(o.padding, d + 1);
    ObjText(v, pad, o, x);
    ObjMeaning(v);
    if n == 0 {
      NoMoreFields(v, inner, o);
      assert "" + end == end;
      LaidEmpty('{', x, d, bare, o);
    } else {
      LaidEnd(n, '}', x, d, o);
      LaidFields(v, 0, end, d + 1, o);
      FieldsText(v, 0, inner, o, end);
      var after := o.keyValSep + (Print(v.fields[0].value, inner, o) + (PrintFields(v, 1, inner, o) + end));
      QuotedHead(v.fields[0].name, after);
      LaidOpen('{', Quoted(v.fields[0].name) + after, d, bare, o);
    }
  }

  lemma QuotedHead(name: string, x: string)
    ensures Head(Quoted(name) + x)
  {
    hide EscapeChars;
    assert (Quoted(name) + x)[0] == '"';
  }

  lemma {:induction false} LaidFields(v: Val, i: nat, end: string, d: nat, o: Format)
    requires v.VObj? && Writable(v) && Numeric(v) && Usual(o) && i <= |v.fields| && Laid(end, d, false, o)
    ensures Laid(PrintFields(v, i, Indent(o.padding, d), o) + end, d, false, o)
    decreases v, 0, |v.fields| - i
  {
    hide *;
    ObjMeaning(v);
    var pad := Indent(o.padding, d);
    if i == |v.fields| {
      NoMoreFields(v, pad, o);
      assert "" + end == end;
    } else {
      var f, after := v.fields[i], PrintFields(v, i + 1, pad, o) + end;
      var x := Print(f.value, pad, o) + after;
      LaidFields(v, i + 1, end, d, o);
      LaidValue(f.value, after, d, false, o);
      HeadOf(f.value, pad, o, after);
      LaidSeparator(x, d, o);
      LaidQuoted(f.name, o.keyValSep + x, d, true, o);
      LaidQuoted(f.name, o.keyValSep + x, d, false, o);
      LaidLead(i, Quoted(f.name) + (o.keyValSep + x), d, o);
      FieldsText(v, i, pad, o, end);
    }
  }

  /** The whole text is laid out as its format says. */
  lemma TextLaid(v: Val, o: Format)
    requires Writable(v) && Numeric(v) && Usual(o)
    ensures Laid(Print(v, "", o), 0, false, o)
  {
    hide Print, Usual;
    assert Laid("", 0, false, o) && Indent(o.padding, 0) == "";
    hide Laid;
    LaidValue(v, "", 0, false, o);
    assert Print(v, "", o) + "" == Print(v, "", o);
  }

  /** Manifesting in a usual format: the bytes of a text that is laid out and reads back as the value. */
  method ManifestLaid(v: Val, o: Format) returns (out: Option<T.Bytes>, ghost text: string)
    requires Usual(o) && Numeric(v)
    ensures out.Some? <==> Writable(v)
    ensures out.Some? ==> out.value == T.Encode(text) && Laid(text, 0, false, o) && ParseText(text) == Some(Meaning(v))
  {
    hide Print, Laid, ParseText, T.Encode;
    out := ManifestJson(v, o);
    text := "";
    if out.Some? {
      text := Print(v, "", o);
      TextLaid(v, o);
      RoundTrip(v, o);
    }
  }
}
