/** The HOCON subset the rendered configurations use: a lexer, a reader that flattens
    nested blocks to paths, and the printed line shapes. The reader stands in for the
    loader the configuration tests call. */
module Hocon {
  import opened Wrappers
  import Text

  datatype Token =
    | Newline | Comma | Open | Close | Equals | ListOpen | ListClose
    | Quoted(text: string) | Word(text: string)

  /* ---- quoting ---- */

  function HexDigit(d: nat): char
    requires d < 16
  {
    if d < 10 then Text.Digit(d) else ('a' as int + d - 10) as char
  }

  /** One character under the %q verb; characters from 0x80 on are taken as printable. */
  function EscapeChar(c: char): string {
    match c
    case '\"' => "\\\""
    case '\\' => "\\\\"
    case '\U{07}' => "\\a"
    case '\U{08}' => "\\b"
    case '\U{0C}' => "\\f"
    case '\n' => "\\n"
    case '\r' => "\\r"
    case '\t' => "\\t"
    case '\U{0B}' => "\\v"
    case _ =>
      if c < ' ' || c == '\U{7F}' then "\\x" + [HexDigit(c as int / 16), HexDigit(c as int % 16)] else [c]
  }

  const HEX := "0123456789abcdef"

  /** A control character without a letter of its own is escaped by its number in two
      hexadecimal digits. */
  lemma HexEscape(c: char) returns (high: nat, low: nat)
    requires (c < ' ' && c !in "\U{07}\U{08}\t\n\U{0B}\U{0C}\r") || c == '\U{7F}'
    ensures high < 16 && low < 16 && high * 16 + low == c as int
    ensures EscapeChar(c) == ['\\', 'x', HEX[high], HEX[low]]
  {
    high, low := c as int / 16, c as int % 16;
    HexDigits(high);
    HexDigits(low);
  }

  lemma HexDigits(d: nat)
    requires d < 16
    ensures HexDigit(d) == HEX[d]
  {
  }

  /** The control characters that have a letter of their own. */
  lemma LetterEscape(i: nat)
    requires i < 7
    ensures EscapeChar("\U{07}\U{08}\t\n\U{0B}\U{0C}\r"[i]) == ['\\', "abtnvfr"[i]]
  {
  }

  function Escape(v: string): string {
    if v == "" then "" else EscapeChar(v[0]) + Escape(v[1..])
  }

  function Quote(v: string): string {
    "\"" + Escape(v) + "\""
  }

  /** What a backslash and `c` stand for in a JSON string (section 7 of RFC 8259), \u aside. */
  function Unescape(c: char): Option<char> {
    match c
    case '\"' => Some('\"')
    case '\\' => Some('\\')
    case '/' => Some('/')
    case 'b' => Some('\U{08}')
    case 'f' => Some('\U{0C}')
    case 'n' => Some('\n')
    case 'r' => Some('\r')
    case 't' => Some('\t')
    case _ => None
  }

  datatype Scan = Bad | Closed(text: string, used: nat)

  function Longer(c: char, width: nat, r: Scan): Scan {
    if r.Bad? then Bad else Closed([c] + r.text, width + r.used)
  }

  /** The rest of a quoted string, its closing quote included in `used`. */
  function ScanString(s: string): (r: Scan)
    ensures r.Closed? ==> 0 < r.used <= |s|
    decreases |s|
  {
    if s == "" || s[0] < ' ' then Bad
    else if s[0] == '\"' then Closed("", 1)
    else if s[0] == '\\' then
      if |s| == 1 || Unescape(s[1]).None? then Bad else Longer(Unescape(s[1]).value, 2, ScanString(s[2..]))
    else Longer(s[0], 1, ScanString(s[1..]))
  }

  /** Go and JSON escape the character alike, or neither escapes it. */
  predicate Representable(v: string) {
    forall c | c in v :: c != '\U{7F}' && (c >= ' ' || c in "\U{08}\U{0C}\n\r\t")
  }

  /** A %q string reads back as itself exactly when it is representable. */
  lemma {:induction false} QuotedReadsBack(v: string, rest: string)
    ensures ScanString(Escape(v) + "\"" + rest)
         == if Representable(v) then Closed(v, |Escape(v)| + 1) else Bad
  {
    if v == "" {
      assert Escape(v) + "\"" + rest == "\"" + rest;
    } else {
      var tail := Escape(v[1..]) + "\"" + rest;
      QuotedReadsBack(v[1..], rest);
      EscapedCharReadsBack(v[0], tail);
      Regrouped(EscapeChar(v[0]), Escape(v[1..]), "\"", rest);
      RepresentableCons(v);
    }
  }

  lemma Regrouped(a: string, b: string, c: string, d: string)
    ensures a + b + c + d == a + (b + c + d)
  {
  }

  lemma RepresentableCons(v: string)
    requires v != ""
    ensures Representable(v) <==> Representable([v[0]]) && Representable(v[1..])
  {
    assert v == [v[0]] + v[1..];
    assert forall x :: x in v <==> x in [v[0]] || x in v[1..];
  }

  lemma EscapedCharReadsBack(c: char, tail: string)
    ensures ScanString(EscapeChar(c) + tail)
         == if Representable([c]) then Longer(c, |EscapeChar(c)|, ScanString(tail)) else Bad
  {
    EscapeShape(c);
    EscapedReadsBack(c, EscapeChar(c), tail);
  }

  /** What is not escaped may stand in a JSON string; what is, JSON knows or it does not. */
  lemma EscapeShape(c: char)
    ensures var e := EscapeChar(c);
      if |e| == 1 then e == [c] && c >= ' ' && c != '\"' && c != '\\' && Representable([c])
      else |e| >= 2 && e[0] == '\\'
           && if Representable([c]) then |e| == 2 && Unescape(e[1]) == Some(c) else Unescape(e[1]) == None
  {
    assert c in [c];
  }

  lemma EscapedReadsBack(c: char, e: string, tail: string)
    requires if |e| == 1 then e == [c] && c >= ' ' && c != '\"' && c != '\\' && Representable([c])
      else |e| >= 2 && e[0] == '\\'
           && if Representable([c]) then |e| == 2 && Unescape(e[1]) == Some(c) else Unescape(e[1]) == None
    ensures ScanString(e + tail) == if Representable([c]) then Longer(c, |e|, ScanString(tail)) else Bad
  {
    var s := e + tail;
    assert s[..|e|] == e && s[|e|..] == tail;
    assert s[0] == e[0] && (|e| > 1 ==> s[1] == e[1]);
  }

  /** A string that closes keeps its reading whatever follows. */
  lemma {:induction false} ScanIgnoresRest(s: string, rest: string)
    requires ScanString(s).Closed?
    ensures ScanString(s + rest) == ScanString(s)
    decreases |s|
  {
    if s[0] == '\"' {
    } else if s[0] == '\\' {
      assert (s + rest)[2..] == s[2..] + rest;
      ScanIgnoresRest(s[2..], rest);
    } else {
      assert (s + rest)[1..] == s[1..] + rest;
      ScanIgnoresRest(s[1..], rest);
    }
  }

  /* ---- lexing ---- */

  predicate IsWordChar(c: char) {
    'a' <= c <= 'z' || 'A' <= c <= 'Z' || '0' <= c <= '9' || c == '.' || c == '-' || c == '_'
  }

  predicate IsBlank(c: char) { c == ' ' || c == '\t' || c == '\r' }

  function WordLength(s: string): (n: nat)
    ensures n <= |s|
  {
    if s != "" && IsWordChar(s[0]) then 1 + WordLength(s[1..]) else 0
  }

  /** How far a comment runs: up to the next line break. */
  function CommentLength(s: string): (n: nat)
    ensures n <= |s|
  {
    if s != "" && s[0] != '\n' then 1 + CommentLength(s[1..]) else 0
  }

  function Punctuation(c: char): Option<Token> {
    match c
    case '\n' => Some(Newline)
    case ',' => Some(Comma)
    case '{' => Some(Open)
    case '}' => Some(Close)
    case '=' => Some(Equals)
    case '[' => Some(ListOpen)
    case ']' => Some(ListClose)
    case _ => None
  }

  /** One step of the lexer: how much it consumes and what it yields. */
  datatype LexStep = Stuck | Took(n: nat, tokens: seq<Token>)

  function NextToken(s: string): (r: LexStep)
    requires s != ""
    ensures r.Took? ==> 0 < r.n <= |s|
  {
    if Punctuation(s[0]).Some? then Took(1, [Punctuation(s[0]).value])
    else if IsBlank(s[0]) then Took(1, [])
    else if s[0] == '#' then Took(CommentLength(s), [])
    else if s[0] == '\"' then
      var r := ScanString(s[1..]);
      if r.Bad? then Stuck else Took(1 + r.used, [Quoted(r.text)])
    else if IsWordChar(s[0]) then Took(WordLength(s), [Word(s[..WordLength(s)])])
    else Stuck
  }

  function Chain(a: seq<Token>, r: Option<seq<Token>>): Option<seq<Token>> {
    if r.None? then None else Some(a + r.value)
  }

  function Lex(s: string): Option<seq<Token>>
    decreases |s|
  {
    if s == "" then Some([])
    else
      var step := NextToken(s);
      if step.Stuck? then None else Chain(step.tokens, Lex(s[step.n..]))
  }

  lemma {:induction false} WordStopsAtBreak(a: string, b: string)
    ensures WordLength(a + "\n" + b) == WordLength(a)
  {
    if a == "" {
      assert a + "\n" + b == "\n" + b;
    } else {
      assert (a + "\n" + b)[1..] == a[1..] + "\n" + b;
      WordStopsAtBreak(a[1..], b);
    }
  }

  lemma {:induction false} CommentStopsAtBreak(a: string, b: string)
    ensures CommentLength(a + "\n" + b) == CommentLength(a)
  {
    if a == "" {
      assert a + "\n" + b == "\n" + b;
    } else {
      assert (a + "\n" + b)[1..] == a[1..] + "\n" + b;
      CommentStopsAtBreak(a[1..], b);
    }
  }

  lemma DropFront(a: string, b: string, n: nat)
    requires n <= |a|
    ensures (a + "\n" + b)[n..] == a[n..] + "\n" + b
    ensures (a + "\n" + b)[..n] == a[..n]
  {
  }

  lemma NextTokenAcrossBreak(a: string, b: string)
    requires a != "" && NextToken(a).Took?
    ensures NextToken(a + "\n" + b) == NextToken(a)
  {
    var t := a + "\n" + b;
    assert t[0] == a[0];
    CommentStopsAtBreak(a, b);
    WordStopsAtBreak(a, b);
    DropFront(a, b, WordLength(a));
    if a[0] == '\"' {
      DropFront(a, b, 1);
      assert a[1..] + "\n" + b == a[1..] + ("\n" + b);
      ScanIgnoresRest(a[1..], "\n" + b);
    }
  }

  lemma ChainTwice(x: seq<Token>, y: seq<Token>, r: Option<seq<Token>>)
    ensures Chain(x, Chain(y, r)) == Chain(x + y, r)
  {
    if r.Some? {
      assert x + (y + r.value) == x + y + r.value;
    }
  }

  /** Text that lexes on its own lexes the same in front of a line break. */
  lemma {:induction false} LexAcrossBreak(a: string, b: string)
    requires Lex(a).Some?
    ensures Lex(a + "\n" + b) == Chain(Lex(a).value + [Newline], Lex(b))
    decreases |a|
  {
    if a == "" {
      LexPunctuation('\n', b);
      assert a + "\n" + b == "\n" + b;
      assert Lex(a).value + [Newline] == [Newline];
    } else {
      var step := NextToken(a);
      var a' := a[step.n..];
      NextTokenAcrossBreak(a, b);
      DropFront(a, b, step.n);
      LexAcrossBreak(a', b);
      ChainTwice(step.tokens, Lex(a').value + [Newline], Lex(b));
      assert step.tokens + (Lex(a').value + [Newline]) == Lex(a).value + [Newline];
    }
  }

  /* ---- lexing what the printer writes ---- */

  function Spaces(n: nat): string {
    if n == 0 then "" else " " + Spaces(n - 1)
  }

  predicate IsWord(w: string) {
    w != "" && forall c | c in w :: IsWordChar(c)
  }

  lemma LexBlank(rest: string)
    ensures Lex(" " + rest) == Lex(rest)
  {
    var s := " " + rest;
    assert NextToken(s) == Took(1, []);
    assert s[1..] == rest;
    ChainNothing(Lex(rest));
  }

  lemma {:induction false} LexSpaces(n: nat, rest: string)
    ensures Lex(Spaces(n) + rest) == Lex(rest)
  {
    if n == 0 {
      assert Spaces(n) + rest == rest;
    } else {
      LexSpaces(n - 1, rest);
      LexBlank(Spaces(n - 1) + rest);
      SpacesCons(n - 1, rest);
    }
  }

  lemma SpacesCons(n: nat, rest: string)
    ensures Spaces(n + 1) + rest == " " + (Spaces(n) + rest)
  {
  }

  lemma ChainNothing(r: Option<seq<Token>>)
    ensures Chain([], r) == r
  {
    assert r.Some? ==> [] + r.value == r.value;
  }

  lemma {:induction false} WordMeasured(w: string, rest: string)
    requires forall c | c in w :: IsWordChar(c)
    requires rest == "" || !IsWordChar(rest[0])
    ensures WordLength(w + rest) == |w|
  {
    if w == "" {
      assert w + rest == rest;
    } else {
      assert w[0] in w;
      assert (w + rest)[1..] == w[1..] + rest;
      WordMeasured(w[1..], rest);
    }
  }

  lemma LexWord(w: string, rest: string)
    requires IsWord(w)
    requires rest == "" || !IsWordChar(rest[0])
    ensures Lex(w + rest) == Chain([Word(w)], Lex(rest))
  {
    var s := w + rest;
    WordMeasured(w, rest);
    assert w[0] in w && s[0] == w[0];
    assert s[..|w|] == w && s[|w|..] == rest;
    assert NextToken(s) == Took(|w|, [Word(w)]);
  }

  lemma LexQuote(v: string, rest: string)
    requires Representable(v)
    ensures Lex(Quote(v) + rest) == Chain([Quoted(v)], Lex(rest))
  {
    QuoteToken(v, rest);
    LexNext(Quote(v) + rest, |Escape(v)| + 2, [Quoted(v)], rest);
  }

  lemma QuoteToken(v: string, rest: string)
    requires Representable(v)
    ensures var s := Quote(v) + rest;
      NextToken(s) == Took(|Escape(v)| + 2, [Quoted(v)]) && s[|Escape(v)| + 2..] == rest
  {
    QuotedReadsBack(v, rest);
    QuoteParts(Escape(v), rest);
    TokenOfQuote(Quote(v) + rest);
  }

  lemma QuoteParts(e: string, rest: string)
    ensures var s := "\"" + e + "\"" + rest;
      s[0] == '\"' && s[1..] == e + "\"" + rest && s[|e| + 2..] == rest
  {
  }

  lemma TokenOfQuote(s: string)
    requires s != "" && s[0] == '\"'
    ensures var r := ScanString(s[1..]); NextToken(s) == if r.Bad? then Stuck else Took(1 + r.used, [Quoted(r.text)])
  {
  }

  lemma LexNext(s: string, n: nat, tokens: seq<Token>, rest: string)
    requires s != "" && NextToken(s) == Took(n, tokens) && s[n..] == rest
    ensures Lex(s) == Chain(tokens, Lex(rest))
  {
  }

  lemma LexPunctuation(c: char, rest: string)
    requires Punctuation(c).Some?
    ensures Lex([c] + rest) == Chain([Punctuation(c).value], Lex(rest))
  {
    assert ([c] + rest)[1..] == rest;
  }

  /* ---- reading ---- */

  datatype Value = Str(text: string) | Bare(word: string) | StrList(items: seq<string>)

  /** One setting at its full path. */
  datatype Entry = Entry(path: seq<string>, value: Value)

  /** The settings read and the blocks still open, or a syntax error. */
  datatype Outcome = Fail | Done(entries: seq<Entry>, blocks: seq<seq<string>>)

  function Prefixed(path: seq<string>, es: seq<Entry>): (r: seq<Entry>)
    ensures |r| == |es|
  {
    seq(|es|, i requires 0 <= i < |es| => Entry(path + es[i].path, es[i].value))
  }

  function Flat(blocks: seq<seq<string>>): seq<string> {
    if blocks == [] then [] else Flat(blocks[..|blocks| - 1]) + blocks[|blocks| - 1]
  }

  /** A quoted key is one path element; a bare key has one for each dotted part. */
  function KeyPath(t: Token): seq<string>
    requires t.Quoted? || t.Word?
  {
    if t.Quoted? then [t.text] else Text.Split(t.text, ".")
  }

  function ScalarOf(t: Token): Value
    requires t.Quoted? || t.Word?
  {
    if t.Quoted? then Str(t.text) else Bare(t.text)
  }

  predicate EndsSetting(ts: seq<Token>) {
    ts == [] || ts[0].Newline? || ts[0].Comma? || ts[0].Close?
  }

  function Before(es: seq<Entry>, r: Outcome): Outcome {
    if r.Fail? then Fail else Done(es + r.entries, r.blocks)
  }

  predicate OpensBlock(ts: seq<Token>) {
    |ts| >= 2 && (ts[0].Quoted? || ts[0].Word?) && ts[1].Open?
  }

  predicate SetsScalar(ts: seq<Token>) {
    |ts| >= 3 && (ts[0].Quoted? || ts[0].Word?) && ts[1].Equals? && (ts[2].Quoted? || ts[2].Word?) && EndsSetting(ts[3..])
  }

  predicate SetsList(ts: seq<Token>) {
    |ts| >= 5 && (ts[0].Quoted? || ts[0].Word?) && ts[1].Equals?
    && ts[2].ListOpen? && ts[3].Quoted? && ts[4].ListClose? && EndsSetting(ts[5..])
  }

  /** One step of the reader: tokens consumed, settings made, blocks open afterwards. */
  datatype ReadStep = Wrong | Moved(n: nat, entries: seq<Entry>, blocks: seq<seq<string>>)

  function NextItem(ts: seq<Token>, blocks: seq<seq<string>>): (r: ReadStep)
    requires ts != []
    ensures r.Moved? ==> 0 < r.n <= |ts|
  {
    if ts[0].Newline? || ts[0].Comma? then Moved(1, [], blocks)
    else if ts[0].Close? then
      if blocks == [] then Wrong else Moved(1, [], blocks[..|blocks| - 1])
    else if OpensBlock(ts) then Moved(2, [], blocks + [KeyPath(ts[0])])
    else if SetsScalar(ts) then Moved(3, [Entry(Flat(blocks) + KeyPath(ts[0]), ScalarOf(ts[2]))], blocks)
    else if SetsList(ts) then Moved(5, [Entry(Flat(blocks) + KeyPath(ts[0]), StrList([ts[3].text]))], blocks)
    else Wrong
  }

  function Read(ts: seq<Token>, blocks: seq<seq<string>>): Outcome
    decreases |ts|
  {
    if ts == [] then Done([], blocks)
    else
      var step := NextItem(ts, blocks);
      if step.Wrong? then Fail else Before(step.entries, Read(ts[step.n..], step.blocks))
  }

  lemma NextItemAcrossBreak(a: seq<Token>, b: seq<Token>, blocks: seq<seq<string>>)
    requires a != [] && NextItem(a, blocks).Moved?
    ensures NextItem(a + [Newline] + b, blocks) == NextItem(a, blocks)
  {
    var t := a + [Newline] + b;
    assert forall k | 0 <= k < |a| :: t[k] == a[k];
    assert t[|a|] == Newline;
  }

  lemma BeforeTwice(x: seq<Entry>, y: seq<Entry>, r: Outcome)
    ensures Before(x, Before(y, r)) == Before(x + y, r)
  {
    if r.Done? {
      assert x + (y + r.entries) == x + y + r.entries;
    }
  }

  lemma BeforeNothing(r: Outcome)
    ensures Before([], r) == r
  {
  }

  /** Reading up to a line break and on from there. */
  lemma {:induction false} ReadAcrossBreak(a: seq<Token>, b: seq<Token>, blocks: seq<seq<string>>)
    requires Read(a, blocks).Done?
    ensures Read(a + [Newline] + b, blocks) == Before(Read(a, blocks).entries, Read(b, Read(a, blocks).blocks))
    decreases |a|
  {
    var t := a + [Newline] + b;
    if a == [] {
      assert t[1..] == b;
      BeforeNothing(Read(b, blocks));
    } else {
      var step := NextItem(a, blocks);
      var rest := Read(a[step.n..], step.blocks);
      NextItemAcrossBreak(a, b, blocks);
      assert t[step.n..] == a[step.n..] + [Newline] + b;
      ReadAcrossBreak(a[step.n..], b, step.blocks);
      BeforeTwice(step.entries, rest.entries, Read(b, rest.blocks));
    }
  }

  lemma {:induction false} FlatConcat(a: seq<seq<string>>, b: seq<seq<string>>)
    ensures Flat(a + b) == Flat(a) + Flat(b)
  {
    if b == [] {
      assert a + b == a;
    } else {
      var b' := b[..|b| - 1];
      assert (a + b)[..|a + b| - 1] == a + b';
      FlatConcat(a, b');
      assert Flat(a) + Flat(b') + b[|b| - 1] == Flat(a) + (Flat(b') + b[|b| - 1]);
    }
  }

  /** Text that reads on its own reads the same inside open blocks, one level deeper. */
  lemma {:induction false} ReadInside(ts: seq<Token>, blocks: seq<seq<string>>, outer: seq<seq<string>>)
    requires Read(ts, blocks).Done?
    ensures Read(ts, outer + blocks)
         == Done(Prefixed(Flat(outer), Read(ts, blocks).entries), outer + Read(ts, blocks).blocks)
    decreases |ts|
  {
    if ts != [] {
      var step := NextItem(ts, blocks);
      NextItemInside(ts, blocks, outer);
      ReadInside(ts[step.n..], step.blocks, outer);
      PrefixedConcat(Flat(outer), step.entries, Read(ts[step.n..], step.blocks).entries);
    }
  }

  lemma NextItemInside(ts: seq<Token>, blocks: seq<seq<string>>, outer: seq<seq<string>>)
    requires ts != [] && NextItem(ts, blocks).Moved?
    ensures var step := NextItem(ts, blocks);
      NextItem(ts, outer + blocks) == Moved(step.n, Prefixed(Flat(outer), step.entries), outer + step.blocks)
  {
    var step := NextItem(ts, blocks);
    if ts[0].Close? {
      assert (outer + blocks)[..|outer + blocks| - 1] == outer + blocks[..|blocks| - 1];
    } else if OpensBlock(ts) {
      assert (outer + blocks) + [KeyPath(ts[0])] == outer + (blocks + [KeyPath(ts[0])]);
    } else if SetsScalar(ts) {
      SettingInside(KeyPath(ts[0]), ScalarOf(ts[2]), blocks, outer);
    } else if SetsList(ts) {
      SettingInside(KeyPath(ts[0]), StrList([ts[3].text]), blocks, outer);
    }
  }

  lemma SettingInside(key: seq<string>, value: Value, blocks: seq<seq<string>>, outer: seq<seq<string>>)
    ensures [Entry(Flat(outer + blocks) + key, value)] == Prefixed(Flat(outer), [Entry(Flat(blocks) + key, value)])
  {
    FlatConcat(outer, blocks);
    assert Flat(outer) + Flat(blocks) + key == Flat(outer) + (Flat(blocks) + key);
  }

  lemma PrefixedConcat(path: seq<string>, x: seq<Entry>, y: seq<Entry>)
    ensures Prefixed(path, x + y) == Prefixed(path, x) + Prefixed(path, y)
  {
  }

  /* ---- texts ---- */

  function ReadText(s: string, blocks: seq<seq<string>>): Outcome {
    var ts := Lex(s);
    if ts.None? then Fail else Read(ts.value, blocks)
  }

  /** A whole document: everything read and every block closed. */
  function Load(s: string): Option<seq<Entry>> {
    var r := ReadText(s, []);
    if r.Done? && r.blocks == [] then Some(r.entries) else None
  }

  lemma ReadTextAcrossBreak(a: string, b: string, blocks: seq<seq<string>>)
    requires ReadText(a, blocks).Done?
    ensures var r := ReadText(a, blocks); ReadText(a + "\n" + b, blocks) == Before(r.entries, ReadText(b, r.blocks))
  {
    LexAcrossBreak(a, b);
    if Lex(b).Some? {
      ReadAcrossBreak(Lex(a).value, Lex(b).value, blocks);
    }
  }

  /** A verbatim fragment whose braces balance, with the settings it makes. */
  predicate WellFormed(fragment: string) {
    Load(fragment).Some?
  }

  lemma {:induction false} ReadPaths(ts: seq<Token>, blocks: seq<seq<string>>)
    requires Read(ts, blocks).Done?
    ensures forall e | e in Read(ts, blocks).entries :: e.path != []
    decreases |ts|
  {
    if ts != [] {
      var step := NextItem(ts, blocks);
      assert forall e | e in step.entries :: e.path != [];
      ReadPaths(ts[step.n..], step.blocks);
    }
  }

  /** Every setting has a key. */
  lemma LoadedPaths(s: string)
    requires Load(s).Some?
    ensures forall e | e in Load(s).value :: e.path != []
  {
    ReadPaths(Lex(s).value, []);
  }

  lemma FragmentInside(fragment: string, blocks: seq<seq<string>>)
    requires WellFormed(fragment)
    ensures ReadText(fragment, blocks) == Done(Prefixed(Flat(blocks), Load(fragment).value), blocks)
  {
    ReadInside(Lex(fragment).value, [], blocks);
    assert blocks + [] == blocks;
  }
}
