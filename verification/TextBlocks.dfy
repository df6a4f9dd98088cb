/** Text blocks: the lexer for `|||` strings against the texts that denote them. */
module TextBlocks {
  import opened Options

  datatype Error = UnexpectedEnd | MissingNewLine | MissingTermination | MissingIndent

  /** What follows the opening bars: the chomp flag, the lines, and how much of the input they took. */
  datatype Result = Ok(chomp: bool, lines: seq<string>, used: nat) | Err(e: Error) {
    function Chomp(chomp: bool): Result {
      if Ok? then this.(chomp := chomp) else this
    }
  }

  predicate Blank(c: char) {
    c == ' ' || c == '\t'
  }

  predicate HeadBlank(c: char) {
    c == ' ' || c == '\t' || c == '\r'
  }

  predicate NewLine(c: char) {
    c == '\n'
  }

  ghost predicate All(s: string, f: char -> bool) {
    forall i :: 0 <= i < |s| ==> f(s[i])
  }

  /** Length of the run of `f` characters that `s` starts with. */
  function Lead(s: string, f: char -> bool): (n: nat)
    ensures n <= |s|
  {
    if s != [] && f(s[0]) then 1 + Lead(s[1..], f) else 0
  }

  lemma {:induction false} LeadRun(s: string, f: char -> bool)
    ensures All(s[..Lead(s, f)], f) && (Lead(s, f) < |s| ==> !f(s[Lead(s, f)]))
  {
    if s != [] && f(s[0]) {
      LeadRun(s[1..], f);
      assert s[..Lead(s, f)] == [s[0]] + s[1..][..Lead(s[1..], f)];
    }
  }

  lemma {:induction false} LeadOf(a: string, b: string, f: char -> bool)
    requires All(a, f) && (b != [] ==> !f(b[0]))
    ensures Lead(a + b, f) == |a|
  {
    if a == [] {
      assert a + b == b;
    } else {
      LeadOf(a[1..], b, f);
      assert (a + b)[1..] == a[1..] + b;
    }
  }

  function Find(s: string): (n: Option<nat>)
    ensures n.Some? ==> n.value < |s|
  {
    if s == [] then None
    else if s[0] == '\n' then Some(0)
    else
      var n := Find(s[1..]);
      if n.None? then None else Some(n.value + 1)
  }

  lemma {:induction false} FindFirst(s: string)
    requires Find(s).Some?
    ensures var n := Find(s).value; s[n] == '\n' && '\n' !in s[..n]
  {
    if s[0] != '\n' {
      FindFirst(s[1..]);
      assert s[..Find(s).value] == [s[0]] + s[1..][..Find(s[1..]).value];
    }
  }

  lemma {:induction false} FindOf(a: string, b: string)
    requires '\n' !in a
    ensures Find(a + ("\n" + b)) == Some(|a|)
  {
    if a == [] {
      assert a + ("\n" + b) == "\n" + b;
    } else {
      FindOf(a[1..], b);
      assert (a + ("\n" + b))[1..] == a[1..] + ("\n" + b);
    }
  }

  function Empties(k: nat): (r: seq<string>)
    ensures |r| == k && forall i :: 0 <= i < k ==> r[i] == ""
  {
    seq(k, i => "")
  }

  // ---------------------------------------------------------------- what the lexer accepts

  /** A block that goes on after the lines `head`, which took `size` characters. */
  function Prepend(head: seq<string>, size: nat, r: Result): Result {
    match r
    case Ok(chomp, lines, used) => Ok(chomp, head + lines, size + used)
    case Err(e) => Err(e)
  }

  /** The end of a block: blanks and the closing bars. */
  function Ending(head: seq<string>, size: nat, y: string): Result {
    var t := Lead(y, Blank);
    if "|||" <= y[t..] then Ok(false, head, size + t + 3)
    else Err(if y[t..] == [] then UnexpectedEnd else MissingTermination)
  }

  /** The lines of `s`, which starts with the block's indentation, up to the closing bars. */
  function Body(s: string, indent: string): (r: Result)
    requires indent != [] && indent <= s
    ensures r.Ok? ==> r.used <= |s|
    decreases |s|
  {
    var w := s[|indent|..];
    var p := Find(w);
    if p.None? then Err(UnexpectedEnd)
    else
      var x := w[p.value + 1..];
      var k := Lead(x, NewLine);
      var y := x[k..];
      var head, size := [w[..p.value]] + Empties(k), |indent| + p.value + 1 + k;
      if indent <= y then Prepend(head, size, Body(y, indent)) else Ending(head, size, y)
  }

  /** A block whose first indented line starts `v`, after `k` empty lines and `size` characters. */
  function Start(chomp: bool, k: nat, size: nat, v: string): (r: Result)
    ensures r.Ok? ==> r.used <= size + |v|
  {
    var n := Lead(v, Blank);
    if n == 0 then Err(MissingIndent) else Prepend(Empties(k), size, Body(v, v[..n])).Chomp(chomp)
  }

  function Lex(s: string): (r: Result)
    ensures r.Ok? ==> r.used <= |s|
  {
    var c := if s != [] && s[0] == '-' then 1 else 0;
    var h := c + Lead(s[c..], HeadBlank);
    if h == |s| then Err(UnexpectedEnd)
    else if s[h] != '\n' then Err(MissingNewLine)
    else
      var k := Lead(s[h + 1..], NewLine);
      Start(c == 1, k, h + 1 + k, s[h + 1 + k..])
  }

  // ---------------------------------------------------------------- texts that denote blocks

  datatype Line = Empty | Indented(text: string)

  /** A block as it is written: its first indented line fixes the indentation of the others. */
  datatype Block = Block(chomp: bool, head: string, empty: nat, indent: string, first: string, more: seq<Line>,
                         tail: string)

  ghost predicate Only(s: string, cs: set<char>) {
    forall i :: 0 <= i < |s| ==> s[i] in cs
  }

  /** Indentation and what stands before the closing bars are blanks and tabs; after the opening bars
      there may be carriage returns too. */
  ghost predicate Good(b: Block) {
    && Only(b.head, {' ', '\t', '\r'}) && Only(b.tail, {' ', '\t'})
    && b.indent != [] && Only(b.indent, {' ', '\t'}) && !(b.indent <= b.tail)
    && '\n' !in b.first && (b.first != [] ==> b.first[0] !in {' ', '\t'})
    && forall i :: 0 <= i < |b.more| && b.more[i].Indented? ==> '\n' !in b.more[i].text
  }

  function Newlines(k: nat): (r: string)
    ensures |r| == k && forall i :: 0 <= i < k ==> r[i] == '\n'
  {
    seq(k, i => '\n')
  }

  function Written(more: seq<Line>, indent: string): string {
    if more == [] then []
    else (if more[0].Empty? then "\n" else indent + (more[0].text + "\n")) + Written(more[1..], indent)
  }

  function Flag(chomp: bool): string {
    if chomp then "-" else ""
  }

  function Text(b: Block): string {
    Flag(b.chomp) + (b.head + ("\n" + (Newlines(b.empty) + (b.indent + (b.first + ("\n"
      + (Written(b.more, b.indent) + (b.tail + "|||"))))))))
  }

  function Content(more: seq<Line>): (r: seq<string>)
    ensures |r| == |more|
  {
    if more == [] then [] else [if more[0].Empty? then "" else more[0].text] + Content(more[1..])
  }

  function Lines(b: Block): seq<string> {
    Empties(b.empty) + ([b.first] + Content(b.more))
  }

  // ---------------------------------------------------------------- every written block is read back

  /** Number of leading empty lines. */
  function Blanks(more: seq<Line>): (k: nat)
    ensures k <= |more| && (forall i :: 0 <= i < k ==> more[i].Empty?) && (k < |more| ==> more[k].Indented?)
  {
    if more != [] && more[0].Empty? then 1 + Blanks(more[1..]) else 0
  }

  lemma {:induction false} WrittenBlanks(more: seq<Line>, indent: string, k: nat)
    requires k <= |more| && forall i :: 0 <= i < k ==> more[i].Empty?
    ensures Written(more, indent) == Newlines(k) + Written(more[k..], indent)
  {
    if k == 0 {
      assert more[0..] == more && Newlines(0) + Written(more, indent) == Written(more, indent);
    } else {
      WrittenBlanks(more[1..], indent, k - 1);
      assert more[1..][k - 1..] == more[k..] && Newlines(k) == "\n" + Newlines(k - 1);
      Assoc("\n", Newlines(k - 1), Written(more[k..], indent));
    }
  }

  lemma Assoc(a: string, b: string, c: string)
    ensures (a + b) + c == a + (b + c)
  {}

  lemma DropFront(a: string, b: string)
    ensures a <= a + b && (a + b)[|a|..] == b
  {}

  /** The indentation does not go on into the closing line. */
  lemma TailStops(indent: string, tail: string, rest: string)
    requires All(indent, Blank) && !(indent <= tail)
    ensures !(indent <= tail + ("|||" + rest))
  {
    var y := tail + ("|||" + rest);
    assert y[|tail|] == '|';
    if |indent| <= |tail| {
      assert y[..|indent|] == tail[..|indent|];
    } else {
      assert Blank(indent[|tail|]);
    }
  }

  /** One step of the body, given the slices it takes. */
  lemma BodyUnfold(s: string, indent: string, w: string, l: string, x: string, k: nat, y: string)
    requires indent != [] && indent <= s && s[|indent|..] == w
    requires Find(w) == Some(|l|) && w[..|l|] == l && w[|l| + 1..] == x
    requires Lead(x, NewLine) == k && x[k..] == y
    ensures var head, size := [l] + Empties(k), |indent| + |l| + 1 + k;
            Body(s, indent) == if indent <= y then Prepend(head, size, Body(y, indent)) else Ending(head, size, y)
  {
    hide Find, Lead, Prepend, Ending;
  }

  lemma BodyStep(indent: string, l: string, k: nat, y: string)
    requires indent != [] && '\n' !in l && (y != [] ==> y[0] != '\n')
    ensures var s := indent + (l + ("\n" + (Newlines(k) + y)));
            var head, size := [l] + Empties(k), |indent| + |l| + 1 + k;
            indent <= s
            && Body(s, indent) == if indent <= y then Prepend(head, size, Body(y, indent)) else Ending(head, size, y)
  {
    var x := Newlines(k) + y;
    var w := l + ("\n" + x);
    FindOf(l, x);
    LeadOf(Newlines(k), y, NewLine);
    hide *;
    DropFront(indent, w);
    DropFront(l, "\n" + x);
    DropFront("\n", x);
    DropFront(Newlines(k), y);
    assert w[|l| + 1..] == w[|l|..][1..];
    BodyUnfold(indent + w, indent, w, l, x, k, y);
  }

  lemma EndingOf(head: seq<string>, size: nat, tail: string, rest: string)
    requires All(tail, Blank)
    ensures Ending(head, size, tail + ("|||" + rest)) == Ok(false, head, size + |tail| + 3)
  {
    LeadOf(tail, "|||" + rest, Blank);
    hide Lead;
    DropFront(tail, "|||" + rest);
    DropFront("|||", rest);
  }

  lemma PrependOf(head: seq<string>, size: nat, lines: seq<string>, used: nat)
    ensures Prepend(head, size, Ok(false, lines, used)) == Ok(false, head + lines, size + used)
  {}

  /** Empty lines, and then what is left. */
  lemma {:induction false} ContentBlanks(more: seq<Line>, k: nat)
    requires k <= |more| && forall i :: 0 <= i < k ==> more[i].Empty?
    ensures Content(more) == Empties(k) + Content(more[k..])
  {
    if k == 0 {
      assert more[0..] == more && Empties(0) + Content(more) == Content(more);
    } else {
      ContentBlanks(more[1..], k - 1);
      assert more[1..][k - 1..] == more[k..] && Empties(k) == [""] + Empties(k - 1);
      Regroup([""], Empties(k - 1), Content(more[k..]));
    }
  }

  lemma Regroup<T>(a: seq<T>, b: seq<T>, c: seq<T>)
    ensures (a + b) + c == a + (b + c)
  {}

  lemma ContentSplit(l: string, more: seq<Line>, k: nat)
    requires k == Blanks(more)
    ensures k == |more| ==> [l] + Empties(k) == [l] + Content(more)
    ensures k < |more| ==> [l] + Empties(k) + ([more[k].text] + Content(more[k + 1..])) == [l] + Content(more)
  {
    ContentBlanks(more, k);
    hide Empties, Blanks;
    if k == |more| {
      assert Empties(k) + Content([]) == Empties(k);
    } else {
      assert more[k..][1..] == more[k + 1..];
      Regroup([l], Empties(k), Content(more[k..]));
    }
  }

  lemma FirstChar(indent: string, t: string)
    requires indent != [] && All(indent, Blank)
    ensures indent <= indent + t && indent + t != [] && (indent + t)[0] != '\n'
  {
    assert (indent + t)[0] == indent[0];
  }

  lemma EndChar(tail: string, rest: string)
    requires All(tail, Blank)
    ensures var y := tail + ("|||" + rest); y != [] && y[0] != '\n'
  {
    assert (tail + ("|||" + rest))[0] == if tail == [] then '|' else tail[0];
  }

  lemma {:induction false} BodyOf(l: string, more: seq<Line>, indent: string, tail: string, rest: string)
    requires indent != [] && All(indent, Blank) && All(tail, Blank) && !(indent <= tail) && '\n' !in l
    requires forall i :: 0 <= i < |more| && more[i].Indented? ==> '\n' !in more[i].text
    ensures var s := indent + (l + ("\n" + (Written(more, indent) + (tail + ("|||" + rest)))));
            && indent <= s && |rest| <= |s| && Body(s, indent) == Ok(false, [l] + Content(more), |s| - |rest|)
    decreases |more|
  {
    hide *;
    var k := Blanks(more);
    var end := tail + ("|||" + rest);
    var y := Written(more[k..], indent) + end;
    WrittenBlanks(more, indent, k);
    Assoc(Newlines(k), Written(more[k..], indent), end);
    ContentSplit(l, more, k);
    var head, size := [l] + Empties(k), |indent| + |l| + 1 + k;
    if k == |more| {
      WrittenNone(indent);
      assert y == end;
      EndChar(tail, rest);
      TailStops(indent, tail, rest);
      BodyStep(indent, l, k, y);
      EndingOf(head, size, tail, rest);
    } else {
      var t, later := more[k].text, more[k + 1..];
      var z := t + ("\n" + (Written(later, indent) + end));
      WrittenLine(more[k..], indent);
      assert more[k..][1..] == later;
      LineText(indent, t, Written(later, indent), end);
      assert y == indent + z;
      FirstChar(indent, z);
      BodyStep(indent, l, k, y);
      BodyOf(t, later, indent, tail, rest);
      PrependOf(head, size, [t] + Content(later), |y| - |rest|);
    }
  }

  lemma WrittenNone(indent: string)
    ensures Written([], indent) == []
  {}

  lemma WrittenLine(more: seq<Line>, indent: string)
    requires more != [] && more[0].Indented?
    ensures Written(more, indent) == indent + (more[0].text + "\n") + Written(more[1..], indent)
  {}

  lemma LineText(indent: string, t: string, later: string, end: string)
    ensures (indent + (t + "\n")) + later + end == indent + (t + ("\n" + (later + end)))
  {}

  /** Lexing a written block gives back its lines and flag, and takes exactly the block. */
  lemma LexOf(b: Block, rest: string)
    requires Good(b)
    ensures Lex(Text(b) + rest) == Ok(b.chomp, Lines(b), |Text(b)|)
  {
    hide *;
    GoodParts(b);
    var end := b.tail + ("|||" + rest);
    var v := b.indent + (b.first + ("\n" + (Written(b.more, b.indent) + end)));
    BodyOf(b.first, b.more, b.indent, b.tail, rest);
    FirstIndent(b, end);
    StartOf(b, |Flag(b.chomp)| + |b.head| + 1 + b.empty, v, |v| - |rest|);
    HeadStep(b.chomp, b.head, b.empty, v);
    TextParts(b, rest);
    LexEnd(b, rest, v);
  }

  lemma LexEnd(b: Block, rest: string, v: string)
    requires Text(b) + rest == Flag(b.chomp) + (b.head + ("\n" + (Newlines(b.empty) + v))) && |v| >= |rest|
    ensures |Text(b)| == |Flag(b.chomp)| + |b.head| + 1 + b.empty + (|v| - |rest|)
  {
    hide Text, Flag;
    assert |Text(b) + rest| == |Text(b)| + |rest|;
  }

  lemma GoodParts(b: Block)
    requires Good(b)
    ensures All(b.head, HeadBlank) && All(b.tail, Blank) && b.indent != [] && All(b.indent, Blank) && !(b.indent <= b.tail)
    ensures '\n' !in b.first && forall i :: 0 <= i < |b.more| && b.more[i].Indented? ==> '\n' !in b.more[i].text
  {}

  lemma StartOf(b: Block, size: nat, v: string, used: nat)
    requires b.indent != [] && Lead(v, Blank) == |b.indent| && v[..|b.indent|] == b.indent
    requires Body(v, b.indent) == Ok(false, [b.first] + Content(b.more), used)
    ensures Start(b.chomp, b.empty, size, v) == Ok(b.chomp, Lines(b), size + used)
  {
    hide Body, Lead, Content;
  }

  lemma TextParts(b: Block, rest: string)
    ensures Text(b) + rest ==
            Flag(b.chomp)
            + (b.head + ("\n" + (Newlines(b.empty) + (b.indent
               + (b.first + ("\n" + (Written(b.more, b.indent) + (b.tail + ("|||" + rest)))))))))
  {
    hide Written, Newlines, Flag;
    Join8(Flag(b.chomp), b.head, "\n", Newlines(b.empty), b.indent, b.first, "\n", Written(b.more, b.indent), b.tail, "|||", rest);
  }

  lemma Join8(a: string, b: string, c: string, d: string, e: string, f: string, g: string, h: string, i: string,
              j: string, k: string)
    ensures (a + (b + (c + (d + (e + (f + (g + (h + (i + j))))))))) + k
            == a + (b + (c + (d + (e + (f + (g + (h + (i + (j + k)))))))))
  {
    Assoc(i, j, k);
    Assoc(h, i + j, k);
    Assoc(g, h + (i + j), k);
    Assoc(f, g + (h + (i + j)), k);
    Assoc(e, f + (g + (h + (i + j))), k);
    Assoc(d, e + (f + (g + (h + (i + j)))), k);
    Assoc(c, d + (e + (f + (g + (h + (i + j))))), k);
    Assoc(b, c + (d + (e + (f + (g + (h + (i + j)))))), k);
    Assoc(a, b + (c + (d + (e + (f + (g + (h + (i + j))))))), k);
  }

  /** The first indented line decides the indentation. */
  lemma FirstIndent(b: Block, end: string)
    requires Good(b)
    ensures var v := b.indent + (b.first + ("\n" + (Written(b.more, b.indent) + end)));
            Lead(v, Blank) == |b.indent| && v[..|b.indent|] == b.indent && v != [] && v[0] != '\n'
  {
    var w := b.first + ("\n" + (Written(b.more, b.indent) + end));
    assert w[0] == if b.first == [] then '\n' else b.first[0];
    LeadOf(b.indent, w, Blank);
    hide Lead, Written;
    assert (b.indent + w)[..|b.indent|] == b.indent;
  }

  lemma LexUnfold(s: string, c: nat, t: string, h: nat, x: string, k: nat, v: string)
    requires c == (if s != [] && s[0] == '-' then 1 else 0) && s[c..] == t && Lead(t, HeadBlank) == h
    requires h < |t| && t[h] == '\n' && t[h + 1..] == x && Lead(x, NewLine) == k && x[k..] == v
    ensures Lex(s) == Start(c == 1, k, c + h + 1 + k, v)
  {
    hide Lead, Start;
    assert s[c + h] == t[h] && s[c + h + 1..] == x && s[c + h + 1 + k..] == v;
  }

  lemma HeadSlices(head: string, k: nat, v: string)
    requires All(head, HeadBlank) && (v != [] ==> v[0] != '\n')
    ensures var x := Newlines(k) + v;
            var t := head + ("\n" + x);
            && Lead(t, HeadBlank) == |head| < |t| && t[|head|] == '\n' && t[0] != '-' && t[|head| + 1..] == x
            && Lead(x, NewLine) == k && x[k..] == v
  {
    var x := Newlines(k) + v;
    LeadOf(head, "\n" + x, HeadBlank);
    LeadOf(Newlines(k), v, NewLine);
    HeadChar(head, x);
    hide *;
    DropFront(head, "\n" + x);
    DropFront(Newlines(k), v);
    assert (head + ("\n" + x))[|head| + 1..] == x;
  }

  /** The start of a block, up to the first indented line `v`. */
  lemma HeadStep(chomp: bool, head: string, k: nat, v: string)
    requires All(head, HeadBlank) && (v != [] ==> v[0] != '\n')
    ensures Lex(Flag(chomp) + (head + ("\n" + (Newlines(k) + v)))) == Start(chomp, k, |Flag(chomp)| + |head| + 1 + k, v)
  {
    hide *;
    var x := Newlines(k) + v;
    var t := head + ("\n" + x);
    HeadSlices(head, k, v);
    Dash(chomp, t);
    LexUnfold(Flag(chomp) + t, |Flag(chomp)|, t, |head|, x, k, v);
  }

  lemma Dash(chomp: bool, t: string)
    requires t != [] && t[0] != '-'
    ensures var s := Flag(chomp) + t;
            |Flag(chomp)| == (if s != [] && s[0] == '-' then 1 else 0) && s[|Flag(chomp)|..] == t
    ensures |Flag(chomp)| == 1 <==> chomp
  {
    if chomp { DropFront("-", t); } else { assert "" + t == t; }
  }

  lemma HeadChar(head: string, x: string)
    requires All(head, HeadBlank)
    ensures var t := head + ("\n" + x); t[|head|] == '\n' && t[0] != '-'
  {
    assert (head + ("\n" + x))[0] == if head == [] then '\n' else head[0];
  }

  // ---------------------------------------------------------------- everything accepted is a written block

  function EmptyLines(k: nat): (r: seq<Line>)
    ensures |r| == k && forall i :: 0 <= i < k ==> r[i] == Empty
  {
    seq(k, i => Empty)
  }

  ghost predicate GoodLines(more: seq<Line>) {
    forall i :: 0 <= i < |more| && more[i].Indented? ==> '\n' !in more[i].text
  }

  lemma AllNewlines(x: string)
    requires All(x, NewLine)
    ensures x == Newlines(|x|)
  {}

  lemma EmptyWritten(k: nat, more: seq<Line>, indent: string)
    ensures Written(EmptyLines(k) + more, indent) == Newlines(k) + Written(more, indent)
    ensures Content(EmptyLines(k) + more) == Empties(k) + Content(more)
    ensures GoodLines(more) ==> GoodLines(EmptyLines(k) + more)
  {
    var all := EmptyLines(k) + more;
    WrittenBlanks(all, indent, k);
    ContentBlanks(all, k);
    hide Written, Content;
    assert all[k..] == more;
  }

  lemma Resume(a: string, n: nat)
    requires n <= |a|
    ensures a == a[..n] + a[n..]
  {}

  lemma FirstLine(w: string) returns (l: string, x: string)
    requires Find(w).Some?
    ensures '\n' !in l && w == l + ("\n" + x)
  {
    FindFirst(w);
    var p := Find(w).value;
    hide Find;
    l, x := w[..p], w[p + 1..];
  }

  lemma EmptyRun(x: string) returns (k: nat, y: string)
    ensures x == Newlines(k) + y && (y != [] ==> y[0] != '\n')
  {
    LeadRun(x, NewLine);
    k := Lead(x, NewLine);
    AllNewlines(x[..k]);
    hide Lead;
    y := x[k..];
    Resume(x, k);
  }

  lemma HeadRun(t: string) returns (head: string, x: string)
    requires Lead(t, HeadBlank) < |t| && t[Lead(t, HeadBlank)] == '\n'
    ensures All(head, HeadBlank) && t == head + ("\n" + x)
  {
    LeadRun(t, HeadBlank);
    var h := Lead(t, HeadBlank);
    hide Lead;
    head, x := t[..h], t[h + 1..];
  }

  /** The first line of a body, the empty lines after it, and what follows them. */
  lemma BodySlices(s: string, indent: string) returns (l: string, k: nat, y: string)
    requires indent != [] && indent <= s && Find(s[|indent|..]).Some?
    ensures '\n' !in l && (y != [] ==> y[0] != '\n') && s == indent + (l + ("\n" + (Newlines(k) + y)))
  {
    hide *;
    var x;
    l, x := FirstLine(s[|indent|..]);
    k, y := EmptyRun(x);
    Resume(s, |indent|);
  }

  lemma EndingBlock(head: seq<string>, size: nat, y: string) returns (tail: string, rest: string)
    requires Ending(head, size, y).Ok?
    ensures y == tail + ("|||" + rest) && All(tail, Blank)
    ensures Ending(head, size, y) == Ok(false, head, size + |y| - |rest|)
  {
    var t := Lead(y, Blank);
    LeadRun(y, Blank);
    hide Lead;
    tail, rest := y[..t], y[t + 3..];
    assert y[t..] == "|||" + rest;
    Resume(y, t);
  }

  lemma BodyFinds(s: string, indent: string)
    requires indent != [] && indent <= s && Body(s, indent).Ok?
    ensures Find(s[|indent|..]).Some?
  {}

  lemma PrependOk(head: seq<string>, size: nat, r: Result)
    requires Prepend(head, size, r).Ok?
    ensures r.Ok?
  {}

  lemma PrefixBlank(indent: string, tail: string, x: string)
    requires !(indent <= tail + x)
    ensures !(indent <= tail)
  {
    if |indent| <= |tail| { assert (tail + x)[..|indent|] == tail[..|indent|]; }
  }

  /** A body that is accepted, as the lines it consists of. */
  lemma {:induction false} BodyBlock(s: string, indent: string)
    returns (l: string, more: seq<Line>, tail: string, rest: string)
    requires indent != [] && indent <= s && Body(s, indent).Ok?
    ensures '\n' !in l && GoodLines(more) && All(tail, Blank) && !(indent <= tail)
    ensures s == indent + (l + ("\n" + (Written(more, indent) + (tail + ("|||" + rest)))))
    ensures Body(s, indent) == Ok(false, [l] + Content(more), |s| - |rest|)
    decreases |s|
  {
    BodyFinds(s, indent);
    hide *;
    var k, y;
    l, k, y := BodySlices(s, indent);
    BodyStep(indent, l, k, y);
    var head, size := [l] + Empties(k), |indent| + |l| + 1 + k;
    if indent <= y {
      PrependOk(head, size, Body(y, indent));
      var l2, more2;
      l2, more2, tail, rest := BodyBlock(y, indent);
      OneLine(l2, more2, indent, tail + ("|||" + rest));
      more := EmptyLines(k) + ([Indented(l2)] + more2);
      Longer(l, k, [Indented(l2)] + more2, indent, tail + ("|||" + rest));
      PrependOf(head, size, [l2] + Content(more2), |y| - |rest|);
    } else {
      tail, rest := EndingBlock(head, size, y);
      PrefixBlank(indent, tail, "|||" + rest);
      NoLine(indent, y);
      more := EmptyLines(k) + [];
      Longer(l, k, [], indent, y);
    }
  }

  /** Empty lines in front of the others. */
  lemma Longer(l: string, k: nat, line: seq<Line>, indent: string, end: string)
    ensures var more := EmptyLines(k) + line;
            && Newlines(k) + (Written(line, indent) + end) == Written(more, indent) + end
            && [l] + Empties(k) + Content(line) == [l] + Content(more)
            && (GoodLines(line) ==> GoodLines(more))
    ensures line == [] ==> [l] + Empties(k) == [l] + Content(EmptyLines(k) + line)
  {
    hide *;
    EmptyWritten(k, line, indent);
    Assoc(Newlines(k), Written(line, indent), end);
    Regroup([l], Empties(k), Content(line));
    if line == [] {
      NoLine(indent, end);
      assert Empties(k) + [] == Empties(k);
    }
  }

  lemma OneLine(l: string, more: seq<Line>, indent: string, end: string)
    ensures Written([Indented(l)] + more, indent) + end == indent + (l + ("\n" + (Written(more, indent) + end)))
    ensures Content([Indented(l)] + more) == [l] + Content(more)
    ensures '\n' !in l && GoodLines(more) ==> GoodLines([Indented(l)] + more)
  {
    var all := [Indented(l)] + more;
    assert all[1..] == more;
    WrittenLine(all, indent);
    LineText(indent, l, Written(more, indent), end);
  }

  lemma NoLine(indent: string, y: string)
    ensures Written([], indent) + y == y && Content([]) == [] && GoodLines([])
  {}

  /** Whatever the lexer accepts is a block as it can be written, with its flag and its lines. */
  lemma BlockOf(s: string) returns (b: Block, rest: string)
    requires Lex(s).Ok?
    ensures Good(b) && s == Text(b) + rest && Lex(s) == Ok(b.chomp, Lines(b), |Text(b)|)
  {
    var chomp, head, k, v := LexSlices(s);
    hide *;
    HeadStep(chomp, head, k, v);
    var indent := StartIndent(chomp, k, |Flag(chomp)| + |head| + 1 + k, v);
    var first, more, tail;
    first, more, tail, rest := BodyBlock(v, indent);
    b := Block(chomp, head, k, indent, first, more, tail);
    FirstOf(v, indent, first, "\n" + (Written(more, indent) + (tail + ("|||" + rest))));
    GoodOf(b);
    TextParts(b, rest);
    LexOf(b, rest);
  }

  lemma GoodOf(b: Block)
    requires All(b.head, HeadBlank) && All(b.tail, Blank) && b.indent != [] && All(b.indent, Blank) && !(b.indent <= b.tail)
    requires '\n' !in b.first && (b.first != [] ==> !Blank(b.first[0])) && GoodLines(b.more)
    ensures Good(b)
  {}

  lemma FirstOf(v: string, indent: string, first: string, x: string)
    requires v == indent + (first + x) && (|indent| < |v| ==> !Blank(v[|indent|]))
    ensures first != [] ==> !Blank(first[0])
  {
    if first != [] { assert v[|indent|] == (first + x)[0] == first[0]; }
  }

  lemma StartIndent(chomp: bool, k: nat, size: nat, v: string) returns (indent: string)
    requires Start(chomp, k, size, v).Ok?
    ensures indent != [] && indent <= v && All(indent, Blank) && Body(v, indent).Ok?
    ensures |indent| < |v| ==> !Blank(v[|indent|])
  {
    LeadRun(v, Blank);
    indent := v[..Lead(v, Blank)];
  }

  lemma LexSlices(s: string) returns (chomp: bool, head: string, k: nat, v: string)
    requires Lex(s).Ok?
    ensures All(head, HeadBlank) && (v != [] ==> v[0] != '\n')
    ensures s == Flag(chomp) + (head + ("\n" + (Newlines(k) + v)))
  {
    chomp := s != [] && s[0] == '-';
    var t := s[|Flag(chomp)|..];
    LexHead(s, chomp);
    assert s == Flag(chomp) + t;
    hide *;
    var x;
    head, x := HeadRun(t);
    k, v := EmptyRun(x);
  }

  lemma LexHead(s: string, chomp: bool)
    requires Lex(s).Ok? && chomp == (s != [] && s[0] == '-')
    ensures |Flag(chomp)| <= |s|
    ensures var t := s[|Flag(chomp)|..]; Lead(t, HeadBlank) < |t| && t[Lead(t, HeadBlank)] == '\n'
  {
    hide Lead, Start;
  }

  /** The lexer accepts exactly the written blocks, and reads each in one way. */
  lemma LexExact(s: string, chomp: bool, lines: seq<string>, n: nat)
    ensures Lex(s) == Ok(chomp, lines, n) <==>
            n <= |s| && exists b :: Good(b) && Text(b) == s[..n] && Lines(b) == lines && b.chomp == chomp
  {
    hide *;
    if Lex(s) == Ok(chomp, lines, n) {
      var b, rest := BlockOf(s);
      assert s[..n] == Text(b);
    }
    if n <= |s| && exists b :: Good(b) && Text(b) == s[..n] && Lines(b) == lines && b.chomp == chomp {
      var b :| Good(b) && Text(b) == s[..n] && Lines(b) == lines && b.chomp == chomp;
      LexOf(b, s[n..]);
      Resume(s, n);
    }
  }

  // ---------------------------------------------------------------- the lexer's cursor

  /** How much of the indentation that starts `a` is repeated at the start of `b`: all of it or nothing. */
  method CheckWhitespace(a: string, b: string) returns (n: nat)
    ensures n == if a[..Lead(a, Blank)] <= b then Lead(a, Blank) else 0
  {
    LeadRun(a, Blank);
    ghost var indent := a[..Lead(a, Blank)];
    for i := 0 to |a|
      invariant i <= |b| && i <= |indent| && a[..i] == b[..i]
    {
      if a[i] != ' ' && a[i] != '\t' {
        assert !Blank(a[i]);
        return i;
      }
      assert i < |indent| && indent[i] == a[i];
      if i >= |b| { return 0; }
      if a[i] != b[i] { return 0; }
      assert a[..i + 1] == a[..i] + [a[i]] && b[..i + 1] == b[..i] + [b[i]];
    }
    return |a|;
  }

  lemma WholeIndent(indent: string)
    requires All(indent, Blank)
    ensures Lead(indent, Blank) == |indent| && indent[..|indent|] == indent
  {
    LeadOf(indent, "", Blank);
    assert indent + "" == indent;
  }

  lemma NoNewline(lines: seq<string>, index: nat, s: string, indent: string)
    requires indent != [] && indent <= s && Find(s[|indent|..]).None?
    ensures Prepend(lines, index, Body(s, indent)) == Err(UnexpectedEnd)
  {
    hide Find;
  }

  lemma LineStep(lines: seq<string>, index: nat, s: string, indent: string, w: string, l: string, x: string, k: nat,
                 y: string)
    requires indent != [] && indent <= s && s[|indent|..] == w && Find(w) == Some(|l|) && w[..|l|] == l
    requires w[|l| + 1..] == x && Lead(x, NewLine) == k && x[k..] == y
    ensures var all, size := lines + [l] + Empties(k), index + |indent| + |l| + 1 + k;
            Prepend(lines, index, Body(s, indent))
            == if indent <= y then Prepend(all, size, Body(y, indent)) else Ending(all, size, y)
  {
    BodyUnfold(s, indent, w, l, x, k, y);
    hide Body, Find, Lead, Empties;
    Regroup(lines, [l], Empties(k));
    if indent <= y && Body(y, indent).Ok? {
      Regroup(lines, [l] + Empties(k), Body(y, indent).lines);
    }
  }

  class Lexer {
    const source: string
    var index: nat
    var truncate: bool
    var lines: seq<string>

    constructor (source: string)
      ensures this.source == source && index == 0 && !truncate && lines == []
    {
      this.source, index, truncate, lines := source, 0, false, [];
    }

    predicate Valid()
      reads this
    {
      index <= |source|
    }

    function Rest(): string
      requires Valid()
      reads this
    {
      source[index..]
    }

    method EatWhile(f: char -> bool)
      requires Valid()
      modifies `index
      ensures Valid() && index == old(index) + Lead(old(Rest()), f)
    {
      while index < |source| && f(source[index])
        invariant Valid() && index + Lead(source[index..], f) == old(index) + Lead(old(Rest()), f)
      {
        assert source[index..][1..] == source[index + 1..];
        index := index + 1;
      }
    }

    /** Empty lines are marked as they are passed. */
    method EatEmptyLines()
      requires Valid()
      modifies `index, `lines
      ensures Valid() && index == old(index) + Lead(old(Rest()), NewLine)
      ensures lines == old(lines) + Empties(Lead(old(Rest()), NewLine))
    {
      ghost var k := 0;
      while index < |source| && source[index] == '\n'
        invariant Valid() && index == old(index) + k && lines == old(lines) + Empties(k)
        invariant k + Lead(source[index..], NewLine) == Lead(old(Rest()), NewLine)
      {
        assert source[index..][1..] == source[index + 1..];
        assert Empties(k + 1) == Empties(k) + [""];
        lines, index, k := lines + [""], index + 1, k + 1;
      }
    }

    /** The position after the next newline, or the end of the source. */
    method FindNewline() returns (nl: Option<nat>)
      requires Valid()
      ensures nl == Find(Rest())
    {
      var i := index;
      while i < |source| && source[i] != '\n'
        invariant index <= i <= |source|
        invariant Find(Rest()) == var n := Find(source[i..]); if n.None? then None else Some(i - index + n.value)
      {
        assert source[i..][1..] == source[i + 1..];
        i := i + 1;
      }
      nl := if i < |source| then Some(i - index) else None;
    }

    /** The whole block after its opening bars. */
    method LexBlock() returns (r: Result)
      requires index == 0 && !truncate && lines == []
      modifies this
      ensures r == Lex(source)
    {
      hide Body, Lead, Find, Empties, Prepend, All;
      if index < |source| && source[index] == '-' {
        truncate, index := true, index + 1;
      }
      ghost var c := index;
      EatWhile(HeadBlank);
      if index == |source| { return Err(UnexpectedEnd); }
      if source[index] != '\n' { return Err(MissingNewLine); }
      index := index + 1;
      ghost var h, k := index - c - 1, Lead(Rest(), NewLine);
      EatEmptyLines();
      assert lines == Empties(k);
      var rest := Rest();
      LexUnfold(source, c, source[c..], h, source[c..][h + 1..], k, rest);
      var numWhitespace := CheckWhitespace(rest, rest);
      LeadRun(rest, Blank);
      if numWhitespace == 0 { return Err(MissingIndent); }
      r := LexLines(rest[..numWhitespace]);
    }

    /** One indented line and the empty lines after it; a result once the block has ended. */
    method LexLine(indent: string) returns (r: Option<Result>)
      requires Valid() && indent != [] && indent <= Rest() && All(indent, Blank)
      modifies `index, `lines
      ensures r.Some? ==> r.value == Prepend(old(lines), old(index), Body(old(Rest()), indent)).Chomp(truncate)
      ensures r.None? ==>
                && Valid() && indent <= Rest() && index > old(index)
                && Prepend(lines, index, Body(Rest(), indent))
                   == Prepend(old(lines), old(index), Body(old(Rest()), indent))
    {
      hide Body, Find, Lead, Prepend, Ending, Empties, All;
      ghost var s := Rest();
      index := index + |indent|;
      assert Rest() == s[|indent|..];
      var nl := FindNewline();
      if nl.None? {
        NoNewline(lines, old(index), s, indent);
        return Some(Err(UnexpectedEnd));
      }
      ghost var w := Rest();
      lines := lines + [source[index..index + nl.value]];
      assert source[index..index + nl.value] == w[..nl.value];
      index := index + nl.value + 1;
      ghost var x := Rest();
      assert x == w[nl.value + 1..];
      EatEmptyLines();
      ghost var k := Lead(x, NewLine);
      assert Rest() == x[k..];
      LineStep(old(lines), old(index), s, indent, w, w[..nl.value], x, k, Rest());
      var numWhitespace := CheckWhitespace(indent, Rest());
      WholeIndent(indent);
      if numWhitespace > 0 { return None; }
      var end := LexEnd();
      return Some(end);
    }

    /** Lines are marked one at a time; what is left is always a body with the same indentation. */
    method LexLines(indent: string) returns (r: Result)
      requires Valid() && indent != [] && indent <= Rest() && All(indent, Blank)
      modifies `index, `lines
      ensures r == Prepend(old(lines), old(index), Body(old(Rest()), indent)).Chomp(truncate)
    {
      hide Body, Find, Lead, Prepend, Ending, Empties, All;
      while true
        invariant Valid() && indent <= Rest()
        invariant Prepend(lines, index, Body(Rest(), indent)) == Prepend(old(lines), old(index), Body(old(Rest()), indent))
        decreases |source| - index
      {
        var end := LexLine(indent);
        if end.Some? { return end.value; }
      }
    }

    method LexEnd() returns (r: Result)
      requires Valid()
      modifies `index
      ensures r == Ending(lines, old(index), old(Rest())).Chomp(truncate)
    {
      EatWhile(Blank);
      if !("|||" <= Rest()) {
        return Err(if Rest() == [] then UnexpectedEnd else MissingTermination);
      }
      index := index + 3;
      return Ok(truncate, lines, index);
    }
  }
}
