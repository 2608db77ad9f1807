/** The line shapes the harness prints, what each of them sets, and the proof that
    printed lines read back as what they set. */
module HoconLines {
  import opened Wrappers
  import opened Hocon
  import Text

  /** `pad` is the run of blanks that aligns the equals sign. */
  datatype Line =
    | Opens(indent: nat, key: string)
    | Closes(indent: nat)
    | Assigns(indent: nat, name: Token, pad: nat, value: Value)
    | Pair(indent: nat, key: string, key1: string, value1: string, key2: string, value2: string)
    | Comment(indent: nat, text: string)
    | Verbatim(text: string)

  function PrintValue(v: Value): string {
    match v
    case Str(s) => Quote(s)
    case Bare(w) => w
    case StrList(items) => "[" + (if items == [] then "" else Quote(items[0])) + "]"
  }

  function PrintName(name: Token): string {
    if name.Quoted? then Quote(name.text) else if name.Word? then name.text else ""
  }

  function PairTail(key: string, value: string, rest: string): string {
    key + (" = " + (Quote(value) + rest))
  }

  function Print(line: Line): string {
    match line
    case Opens(n, key) => Spaces(n) + (key + (" " + "{"))
    case Closes(n) => Spaces(n) + "}"
    case Assigns(n, name, pad, value) => Spaces(n) + (PrintName(name) + (Spaces(pad) + ("= " + PrintValue(value))))
    case Pair(n, key, k1, v1, k2, v2) =>
      Spaces(n) + (key + (" " + ("{ " + PairTail(k1, v1, ", " + PairTail(k2, v2, " }")))))
    case Comment(n, text) => Spaces(n) + ("# " + text)
    case Verbatim(text) => text
  }

  /** Lines one after another, each ended by a line break. */
  function Written(lines: seq<Line>): string {
    if lines == [] then "" else Print(lines[0]) + "\n" + Written(lines[1..])
  }

  /** Lines one after another, each begun by a line break. */
  function Led(lines: seq<Line>): string {
    if lines == [] then "" else Led(lines[..|lines| - 1]) + "\n" + Print(lines[|lines| - 1])
  }

  predicate Printable(line: Line) {
    match line
    case Opens(_, key) => IsWord(key)
    case Closes(_) => true
    case Assigns(_, name, pad, value) =>
      && pad > 0
      && (name.Quoted? || name.Word?)
      && (name.Quoted? ==> Representable(name.text))
      && (name.Word? ==> IsWord(name.text))
      && (value.Str? ==> Representable(value.text))
      && (value.Bare? ==> IsWord(value.word))
      && (value.StrList? ==> |value.items| == 1 && Representable(value.items[0]))
    case Pair(_, key, k1, v1, k2, v2) =>
      IsWord(key) && IsWord(k1) && Representable(v1) && IsWord(k2) && Representable(v2)
    case Comment(_, text) => '\n' !in text
    case Verbatim(text) => WellFormed(text)
  }

  /* ---- what lines set ---- */

  function Effect(line: Line, blocks: seq<seq<string>>): Outcome
    requires Printable(line)
  {
    match line
    case Opens(_, key) => Done([], blocks + [Text.Split(key, ".")])
    case Closes(_) => if blocks == [] then Fail else Done([], blocks[..|blocks| - 1])
    case Assigns(_, name, _, value) => Done([Entry(Flat(blocks) + KeyPath(name), value)], blocks)
    case Pair(_, key, k1, v1, k2, v2) =>
      var path := Flat(blocks + [Text.Split(key, ".")]);
      Done([Entry(path + Text.Split(k1, "."), Str(v1)), Entry(path + Text.Split(k2, "."), Str(v2))], blocks)
    case Comment(_, _) => Done([], blocks)
    case Verbatim(text) => Done(Prefixed(Flat(blocks), Load(text).value), blocks)
  }

  predicate AllPrintable(lines: seq<Line>) {
    forall line | line in lines :: Printable(line)
  }

  function EffectAll(lines: seq<Line>, blocks: seq<seq<string>>): Outcome
    requires AllPrintable(lines)
  {
    if lines == [] then Done([], blocks)
    else
      var r := Effect(lines[0], blocks);
      if r.Fail? then Fail else Before(r.entries, EffectAll(lines[1..], r.blocks))
  }

  /* ---- printed lines read back ---- */

  /** `Lex(s) == Some(ts)`, said so that proofs that chain lexing facts do not unfold `Lex`. */
  ghost predicate Lexes(s: string, ts: seq<Token>) {
    forall t | t == s :: Lex(t) == Some(ts)
  }

  lemma LexesGives(s: string, ts: seq<Token>)
    requires Lexes(s, ts)
    ensures Lex(s) == Some(ts)
  {
  }

  lemma LexWordThen(w: string, rest: string, ts: seq<Token>)
    requires IsWord(w) && (rest == "" || !IsWordChar(rest[0])) && Lexes(rest, ts)
    ensures Lexes(w + rest, [Word(w)] + ts)
  {
    LexesGives(rest, ts);
    LexWord(w, rest);
  }

  lemma LexQuoteThen(v: string, rest: string, ts: seq<Token>)
    requires Representable(v) && Lexes(rest, ts)
    ensures Lexes(Quote(v) + rest, [Quoted(v)] + ts)
  {
    LexesGives(rest, ts);
    LexQuote(v, rest);
  }

  lemma LexSpacesThen(n: nat, rest: string, ts: seq<Token>)
    requires Lexes(rest, ts)
    ensures Lexes(Spaces(n) + rest, ts)
  {
    LexesGives(rest, ts);
    LexSpaces(n, rest);
  }

  lemma LexBlankThen(rest: string, ts: seq<Token>)
    requires Lexes(rest, ts)
    ensures Lexes(" " + rest, ts)
  {
    LexesGives(rest, ts);
    LexBlank(rest);
  }

  lemma LexMarkThen(c: char, rest: string, ts: seq<Token>)
    requires Punctuation(c).Some? && Lexes(rest, ts)
    ensures Lexes([c] + rest, [Punctuation(c).value] + ts)
  {
    LexesGives(rest, ts);
    LexPunctuation(c, rest);
  }

  /** A punctuation mark and the blank after it. */
  lemma LexMarkBlank(c: char, rest: string, ts: seq<Token>)
    requires Punctuation(c).Some? && Lexes(rest, ts)
    ensures Lexes([c, ' '] + rest, [Punctuation(c).value] + ts)
  {
    LexBlankThen(rest, ts);
    LexMarkThen(c, " " + rest, ts);
    assert [c, ' '] + rest == [c] + (" " + rest);
  }

  lemma LexEnd()
    ensures Lexes("", [])
  {
  }

  lemma LexWordAlone(w: string)
    requires IsWord(w)
    ensures Lexes(w, [Word(w)])
  {
    LexEnd();
    LexWordThen(w, "", []);
    assert w + "" == w && [Word(w)] + [] == [Word(w)];
  }

  lemma LexQuoteAlone(v: string)
    requires Representable(v)
    ensures Lexes(Quote(v), [Quoted(v)])
  {
    LexEnd();
    LexQuoteThen(v, "", []);
    assert Quote(v) + "" == Quote(v) && [Quoted(v)] + [] == [Quoted(v)];
  }

  lemma LexMarkAlone(c: char)
    requires Punctuation(c).Some?
    ensures Lexes([c], [Punctuation(c).value])
  {
    LexEnd();
    LexMarkThen(c, "", []);
    assert [c] + "" == [c] && [Punctuation(c).value] + [] == [Punctuation(c).value];
  }

  function ValueTokens(v: Value): seq<Token> {
    match v
    case Str(s) => [Quoted(s)]
    case Bare(w) => [Word(w)]
    case StrList(items) => [ListOpen] + ([Quoted(if items == [] then "" else items[0])] + [ListClose])
  }

  lemma LexValue(v: Value)
    requires Printable(Assigns(0, Word("k"), 1, v))
    ensures Lexes(PrintValue(v), ValueTokens(v))
  {
    match v
    case Str(s) => LexQuoteAlone(s);
    case Bare(w) => LexWordAlone(w);
    case StrList(items) =>
      LexMarkAlone(']');
      LexQuoteThen(items[0], "]", [ListClose]);
      LexMarkThen('[', Quote(items[0]) + "]", [Quoted(items[0])] + [ListClose]);
      assert "[" + Quote(items[0]) + "]" == "[" + (Quote(items[0]) + "]");
  }

  lemma LexAssigns(name: Token, pad: nat, v: Value)
    requires Printable(Assigns(0, name, pad, v))
    ensures Lexes(PrintName(name) + (Spaces(pad) + ("= " + PrintValue(v))), [name] + ([Equals] + ValueTokens(v)))
  {
    LexValue(v);
    LexMarkBlank('=', PrintValue(v), ValueTokens(v));
    var rest := Spaces(pad) + ("= " + PrintValue(v));
    LexSpacesThen(pad, "= " + PrintValue(v), [Equals] + ValueTokens(v));
    assert rest[0] == ' ';
    if name.Quoted? {
      LexQuoteThen(name.text, rest, [Equals] + ValueTokens(v));
    } else {
      LexWordThen(name.text, rest, [Equals] + ValueTokens(v));
    }
  }

  lemma ReadAssigns(name: Token, v: Value, blocks: seq<seq<string>>)
    requires Printable(Assigns(0, name, 1, v))
    ensures Read([name] + ([Equals] + ValueTokens(v)), blocks) == Done([Entry(Flat(blocks) + KeyPath(name), v)], blocks)
  {
    var ts := [name] + ([Equals] + ValueTokens(v));
    var es := [Entry(Flat(blocks) + KeyPath(name), v)];
    if v.StrList? {
      assert ts == [name, Equals, ListOpen, Quoted(v.items[0]), ListClose];
      assert v.items == [v.items[0]];
      assert SetsList(ts) && !SetsScalar(ts) && !OpensBlock(ts);
    } else {
      assert ts == [name, Equals, ValueTokens(v)[0]];
      assert SetsScalar(ts) && !OpensBlock(ts);
    }
    assert NextItem(ts, blocks) == Moved(|ts|, es, blocks);
    assert ts[|ts|..] == [];
    assert es + [] == es;
  }

  function PairTokens(key: string, value: string, rest: seq<Token>): seq<Token> {
    [Word(key)] + ([Equals] + ([Quoted(value)] + rest))
  }

  lemma LexPair(key: string, value: string, rest: string, ts: seq<Token>)
    requires IsWord(key) && Representable(value) && Lexes(rest, ts)
    ensures Lexes(PairTail(key, value, rest), PairTokens(key, value, ts))
  {
    var tail := Quote(value) + rest;
    LexQuoteThen(value, rest, ts);
    LexMarkBlank('=', tail, [Quoted(value)] + ts);
    LexBlankThen("= " + tail, [Equals] + ([Quoted(value)] + ts));
    assert " = " + tail == " " + ("= " + tail);
    LexWordThen(key, " = " + tail, [Equals] + ([Quoted(value)] + ts));
  }

  function BlockTokens(key: string, k1: string, v1: string, k2: string, v2: string): seq<Token> {
    [Word(key)] + ([Open] + PairTokens(k1, v1, [Comma] + PairTokens(k2, v2, [Close])))
  }

  lemma LexBlock(key: string, k1: string, v1: string, k2: string, v2: string)
    requires Printable(Pair(0, key, k1, v1, k2, v2))
    ensures Lexes(key + (" " + ("{ " + PairTail(k1, v1, ", " + PairTail(k2, v2, " }")))), BlockTokens(key, k1, v1, k2, v2))
  {
    LexMarkAlone('}');
    LexBlankThen("}", [Close]);
    assert " " + "}" == " }";
    LexPair(k2, v2, " }", [Close]);
    var t2, s2 := PairTail(k2, v2, " }"), PairTokens(k2, v2, [Close]);
    LexMarkBlank(',', t2, s2);
    LexPair(k1, v1, ", " + t2, [Comma] + s2);
    var t1, s1 := PairTail(k1, v1, ", " + t2), PairTokens(k1, v1, [Comma] + s2);
    LexMarkBlank('{', t1, s1);
    LexBlankThen("{ " + t1, [Open] + s1);
    LexWordThen(key, " " + ("{ " + t1), [Open] + s1);
  }

  lemma ReadBlock(key: string, k1: string, v1: string, k2: string, v2: string, blocks: seq<seq<string>>)
    requires Printable(Pair(0, key, k1, v1, k2, v2))
    ensures Read(BlockTokens(key, k1, v1, k2, v2), blocks) == Effect(Pair(0, key, k1, v1, k2, v2), blocks)
  {
    ReadPairs(key, k1, v1, k2, v2, blocks);
  }

  lemma ReadPairs(key: string, k1: string, v1: string, k2: string, v2: string, blocks: seq<seq<string>>)
    ensures var path := Flat(blocks + [Text.Split(key, ".")]);
      Read(BlockTokens(key, k1, v1, k2, v2), blocks)
      == Done([Entry(path + Text.Split(k1, "."), Str(v1)), Entry(path + Text.Split(k2, "."), Str(v2))], blocks)
  {
    var inside := blocks + [Text.Split(key, ".")];
    var e1 := Entry(Flat(inside) + Text.Split(k1, "."), Str(v1));
    var e2 := Entry(Flat(inside) + Text.Split(k2, "."), Str(v2));
    var t4: seq<Token> := [Close];
    var t3 := PairTokens(k2, v2, t4);
    var t2 := [Comma] + t3;
    var t1 := PairTokens(k1, v1, t2);
    var ts := [Word(key)] + ([Open] + t1);
    OneThenOther(e1, e2);
    assert inside[..|inside| - 1] == blocks;
    ReadStepped(t4, 1, [], inside, [], [], blocks, blocks);
    ReadPairTokens(k2, v2, t4, inside, [], blocks);
    ReadStepped(t2, 1, t3, inside, [], [e2], inside, blocks);
    ReadPairTokens(k1, v1, t2, inside, [e2], blocks);
    ReadStepped(ts, 2, t1, blocks, [], [e1, e2], inside, blocks);
  }

  lemma OneThenOther(e1: Entry, e2: Entry)
    ensures [e1] + [e2] == [e1, e2] && [] + [e1, e2] == [e1, e2] && [e2] + [] == [e2] && [] + [e2] == [e2]
  {
  }

  lemma ReadPairTokens(key: string, value: string, rest: seq<Token>, blocks: seq<seq<string>>, later: seq<Entry>, end: seq<seq<string>>)
    requires EndsSetting(rest) && Read(rest, blocks) == Done(later, end)
    ensures Read(PairTokens(key, value, rest), blocks) == Done([Entry(Flat(blocks) + Text.Split(key, "."), Str(value))] + later, end)
  {
    var ts := PairTokens(key, value, rest);
    assert ts == [Word(key), Equals, Quoted(value)] + rest;
    assert ts[3..] == rest;
    ReadStepped(ts, 3, rest, blocks, [Entry(Flat(blocks) + Text.Split(key, "."), Str(value))], later, blocks, end);
  }

  lemma ReadStepped(ts: seq<Token>, n: nat, rest: seq<Token>, blocks: seq<seq<string>>,
      now: seq<Entry>, later: seq<Entry>, mid: seq<seq<string>>, end: seq<seq<string>>)
    requires ts != [] && NextItem(ts, blocks) == Moved(n, now, mid) && ts[n..] == rest
    requires Read(rest, mid) == Done(later, end)
    ensures Read(ts, blocks) == Done(now + later, end)
  {
  }

  lemma {:induction false} CommentRuns(text: string)
    requires '\n' !in text
    ensures CommentLength(text) == |text|
  {
    if text != "" {
      assert text[0] in text;
      CommentRuns(text[1..]);
    }
  }

  lemma OpensReadsBack(n: nat, key: string, blocks: seq<seq<string>>)
    requires IsWord(key)
    ensures ReadText(Print(Opens(n, key)), blocks) == Effect(Opens(n, key), blocks)
  {
    LexMarkAlone('{');
    LexBlankThen("{", [Open]);
    LexWordThen(key, " " + "{", [Open]);
    var ts := [Word(key)] + [Open];
    LexSpacesThen(n, key + (" " + "{"), ts);
    assert Print(Opens(n, key)) == Spaces(n) + (key + (" " + "{"));
    LexesGives(Print(Opens(n, key)), ts);
    assert ts == [Word(key), Open];
    ReadStepped(ts, 2, [], blocks, [], [], blocks + [KeyPath(ts[0])], blocks + [KeyPath(ts[0])]);
  }

  lemma ClosesReadsBack(n: nat, blocks: seq<seq<string>>)
    requires blocks != []
    ensures ReadText(Print(Closes(n)), blocks) == Effect(Closes(n), blocks)
  {
    LexMarkAlone('}');
    LexSpacesThen(n, "}", [Close]);
    LexesGives(Print(Closes(n)), [Close]);
    assert NextItem([Close], blocks) == Moved(1, [], blocks[..|blocks| - 1]);
    assert [Close][1..] == [];
  }

  lemma CommentReadsBack(n: nat, text: string, blocks: seq<seq<string>>)
    requires '\n' !in text
    ensures ReadText(Print(Comment(n, text)), blocks) == Done([], blocks)
  {
    var s := "# " + text;
    assert forall c :: c in s ==> c in "# " || c in text;
    CommentRuns(s);
    assert NextToken(s) == Took(|s|, []);
    assert s[|s|..] == "";
    LexSpaces(n, s);
  }

  /** Every printed line reads back as what it sets. */
  lemma LineReadsBack(line: Line, blocks: seq<seq<string>>)
    requires Printable(line) && Effect(line, blocks).Done?
    ensures ReadText(Print(line), blocks) == Effect(line, blocks)
  {
    match line
    case Opens(n, key) => OpensReadsBack(n, key, blocks);
    case Closes(n) => ClosesReadsBack(n, blocks);
    case Assigns(n, name, pad, value) =>
      var text, ts := PrintName(name) + (Spaces(pad) + ("= " + PrintValue(value))), [name] + ([Equals] + ValueTokens(value));
      LexAssigns(name, pad, value);
      LexSpacesThen(n, text, ts);
      LexesGives(Spaces(n) + text, ts);
      ReadAssigns(name, value, blocks);
    case Pair(n, key, k1, v1, k2, v2) =>
      var text := key + (" " + ("{ " + PairTail(k1, v1, ", " + PairTail(k2, v2, " }"))));
      LexBlock(key, k1, v1, k2, v2);
      LexSpacesThen(n, text, BlockTokens(key, k1, v1, k2, v2));
      LexesGives(Spaces(n) + text, BlockTokens(key, k1, v1, k2, v2));
      ReadBlock(key, k1, v1, k2, v2, blocks);
    case Comment(n, text) => CommentReadsBack(n, text, blocks);
    case Verbatim(text) => FragmentInside(text, blocks);
  }

  /** Lines read back in order. */
  lemma {:induction false} WrittenReadsBack(lines: seq<Line>, blocks: seq<seq<string>>)
    requires AllPrintable(lines) && EffectAll(lines, blocks).Done?
    ensures ReadText(Written(lines), blocks) == EffectAll(lines, blocks)
  {
    if lines != [] {
      var r := Effect(lines[0], blocks);
      LineReadsBack(lines[0], blocks);
      WrittenReadsBack(lines[1..], r.blocks);
      ReadTextAcrossBreak(Print(lines[0]), Written(lines[1..]), blocks);
    }
  }

  lemma {:induction false} EffectConcat(a: seq<Line>, b: seq<Line>, blocks: seq<seq<string>>)
    requires AllPrintable(a) && AllPrintable(b) && EffectAll(a, blocks).Done?
    ensures AllPrintable(a + b)
    ensures var r := EffectAll(a, blocks); EffectAll(a + b, blocks) == Before(r.entries, EffectAll(b, r.blocks))
  {
    if a == [] {
      assert a + b == b;
      BeforeNothing(EffectAll(b, blocks));
    } else {
      var r := Effect(a[0], blocks);
      var r' := EffectAll(a[1..], r.blocks);
      assert (a + b)[1..] == a[1..] + b;
      EffectConcat(a[1..], b, r.blocks);
      BeforeTwice(r.entries, r'.entries, EffectAll(b, r'.blocks));
    }
  }

  /** The same for lines begun by their breaks, as the loop blocks are written. */
  lemma {:induction false} LedReadsBack(lines: seq<Line>, blocks: seq<seq<string>>)
    requires AllPrintable(lines) && EffectAll(lines, blocks).Done?
    ensures ReadText(Led(lines), blocks) == EffectAll(lines, blocks)
  {
    if lines != [] {
      var front, last := lines[..|lines| - 1], lines[|lines| - 1];
      assert lines == front + [last];
      PrefixDone(front, [last], blocks);
      EffectConcat(front, [last], blocks);
      LedReadsBack(front, blocks);
      var r := EffectAll(front, blocks);
      EffectOne(last, r.blocks);
      LineReadsBack(last, r.blocks);
      ReadTextAcrossBreak(Led(front), Print(last), blocks);
    }
  }

  lemma EffectOne(line: Line, blocks: seq<seq<string>>)
    requires Printable(line)
    ensures EffectAll([line], blocks) == Effect(line, blocks)
  {
    var r := Effect(line, blocks);
    if r.Done? {
      assert r.entries + [] == r.entries;
    }
  }

  lemma {:induction false} PrefixDone(a: seq<Line>, b: seq<Line>, blocks: seq<seq<string>>)
    requires AllPrintable(a + b) && EffectAll(a + b, blocks).Done?
    ensures AllPrintable(a) && EffectAll(a, blocks).Done?
  {
    assert forall line | line in a :: line in a + b;
    if a != [] {
      assert (a + b)[1..] == a[1..] + b;
      PrefixDone(a[1..], b, Effect(a[0], blocks).blocks);
    }
  }

  /* ---- what a run of lines sets, wherever it stands ---- */

  ghost predicate Sets(lines: seq<Line>, es: seq<Entry>) {
    AllPrintable(lines) && forall blocks :: EffectAll(lines, blocks) == Done(Prefixed(Flat(blocks), es), blocks)
  }

  lemma SetsNothing()
    ensures Sets([], [])
  {
  }

  lemma SetsConcat(a: seq<Line>, ea: seq<Entry>, b: seq<Line>, eb: seq<Entry>)
    requires Sets(a, ea) && Sets(b, eb)
    ensures Sets(a + b, ea + eb)
  {
    forall blocks ensures AllPrintable(a + b) && EffectAll(a + b, blocks) == Done(Prefixed(Flat(blocks), ea + eb), blocks) {
      EffectConcat(a, b, blocks);
      PrefixedConcat(Flat(blocks), ea, eb);
    }
  }

  lemma SetsLine(line: Line, es: seq<Entry>)
    requires Printable(line)
    requires forall blocks :: Effect(line, blocks) == Done(Prefixed(Flat(blocks), es), blocks)
    ensures Sets([line], es)
  {
    forall blocks ensures EffectAll([line], blocks) == Done(Prefixed(Flat(blocks), es), blocks) {
      EffectOne(line, blocks);
    }
  }

  lemma SetsVerbatim(text: string)
    requires WellFormed(text)
    ensures Sets([Verbatim(text)], Load(text).value)
  {
    SetsLine(Verbatim(text), Load(text).value);
  }

  lemma SetsComment(n: nat, text: string)
    requires '\n' !in text
    ensures Sets([Comment(n, text)], [])
  {
    SetsLine(Comment(n, text), []);
  }

  lemma SetsField(n: nat, name: Token, pad: nat, value: Value)
    requires Printable(Assigns(n, name, pad, value))
    ensures Sets([Assigns(n, name, pad, value)], [Entry(KeyPath(name), value)])
  {
    SetsLine(Assigns(n, name, pad, value), [Entry(KeyPath(name), value)]);
  }

  lemma SetsPair(n: nat, key: string, k1: string, v1: string, k2: string, v2: string)
    requires Printable(Pair(n, key, k1, v1, k2, v2))
    ensures Sets([Pair(n, key, k1, v1, k2, v2)],
      Prefixed(Text.Split(key, "."), [Entry(Text.Split(k1, "."), Str(v1)), Entry(Text.Split(k2, "."), Str(v2))]))
  {
    var es := [Entry(Text.Split(k1, "."), Str(v1)), Entry(Text.Split(k2, "."), Str(v2))];
    var path := Text.Split(key, ".");
    forall blocks ensures Effect(Pair(n, key, k1, v1, k2, v2), blocks) == Done(Prefixed(Flat(blocks), Prefixed(path, es)), blocks) {
      PrefixedTwice(Flat(blocks), path, es);
      assert (blocks + [path])[..|blocks|] == blocks;
    }
    SetsLine(Pair(n, key, k1, v1, k2, v2), Prefixed(path, es));
  }

  lemma PrefixedTwice(p: seq<string>, q: seq<string>, es: seq<Entry>)
    ensures Prefixed(p, Prefixed(q, es)) == Prefixed(p + q, es)
  {
    forall i | 0 <= i < |es| ensures Prefixed(p, Prefixed(q, es))[i] == Prefixed(p + q, es)[i] {
      assert p + (q + es[i].path) == p + q + es[i].path;
    }
  }

  lemma PrefixedEmpty(es: seq<Entry>)
    ensures Prefixed([], es) == es
  {
    forall i | 0 <= i < |es| ensures Prefixed([], es)[i] == es[i] {
      assert [] + es[i].path == es[i].path;
    }
  }

  /** A block prefixes what its body sets. */
  lemma SetsBlock(n: nat, key: string, body: seq<Line>, es: seq<Entry>)
    requires IsWord(key) && Sets(body, es)
    ensures Sets([Opens(n, key)] + body + [Closes(n)], Prefixed(Text.Split(key, "."), es))
  {
    var path := Text.Split(key, ".");
    var lines := [Opens(n, key)] + body + [Closes(n)];
    forall blocks
      ensures AllPrintable(lines) && EffectAll(lines, blocks) == Done(Prefixed(Flat(blocks), Prefixed(path, es)), blocks)
    {
      var inside := blocks + [path];
      assert inside[..|inside| - 1] == blocks;
      EffectOne(Opens(n, key), blocks);
      EffectOne(Closes(n), inside);
      EffectConcat([Opens(n, key)], body, blocks);
      EffectConcat([Opens(n, key)] + body, [Closes(n)], blocks);
      PrefixedTwice(Flat(blocks), path, es);
      assert [] + Prefixed(Flat(inside), es) + [] == Prefixed(Flat(inside), es);
    }
  }

  lemma LedLoads(lines: seq<Line>, es: seq<Entry>)
    requires Sets(lines, es)
    ensures Load(Led(lines)) == Some(es)
  {
    LedReadsBack(lines, []);
    PrefixedEmpty(es);
  }

  lemma {:induction false} WrittenConcat(a: seq<Line>, b: seq<Line>)
    ensures Written(a + b) == Written(a) + Written(b)
  {
    if a == [] {
      assert a + b == b;
    } else {
      assert (a + b)[1..] == a[1..] + b;
      WrittenConcat(a[1..], b);
      Regrouped(Print(a[0]), "\n", Written(a[1..]), Written(b));
    }
  }

  /** A setting under a bare key, with the path the key stands for. */
  datatype Field = Field(key: string, path: seq<string>, pad: nat, value: Value)

  predicate PlainKey(key: string) {
    IsWord(key) && '.' !in key
  }

  predicate DottedKey(key: string, a: string, b: string) {
    IsWord(key) && key == a + "." + b && '.' !in a && '.' !in b
  }

  predicate FieldReads(f: Field) {
    && Printable(Assigns(0, Word(f.key), f.pad, f.value))
    && if |f.path| == 2 then DottedKey(f.key, f.path[0], f.path[1]) else f.path == [f.key] && PlainKey(f.key)
  }

  function FieldLines(n: nat, fields: seq<Field>): seq<Line> {
    seq(|fields|, i requires 0 <= i < |fields| => Assigns(n, Word(fields[i].key), fields[i].pad, fields[i].value))
  }

  function FieldSettings(fields: seq<Field>): seq<Entry> {
    seq(|fields|, i requires 0 <= i < |fields| => Entry(fields[i].path, fields[i].value))
  }

  lemma {:induction false} SetsFields(n: nat, fields: seq<Field>)
    requires forall f | f in fields :: FieldReads(f)
    ensures Sets(FieldLines(n, fields), FieldSettings(fields))
  {
    if fields == [] {
      SetsNothing();
    } else {
      var k := |fields| - 1;
      var f := fields[k];
      SetsFields(n, fields[..k]);
      SetsOneField(n, f);
      SetsConcat(FieldLines(n, fields[..k]), FieldSettings(fields[..k]),
                 [Assigns(n, Word(f.key), f.pad, f.value)], [Entry(f.path, f.value)]);
      assert FieldLines(n, fields) == FieldLines(n, fields[..k]) + [Assigns(n, Word(f.key), f.pad, f.value)];
      assert FieldSettings(fields) == FieldSettings(fields[..k]) + [Entry(f.path, f.value)];
    }
  }

  lemma SetsOneField(n: nat, f: Field)
    requires FieldReads(f)
    ensures Sets([Assigns(n, Word(f.key), f.pad, f.value)], [Entry(f.path, f.value)])
  {
    SetsField(n, Word(f.key), f.pad, f.value);
    if |f.path| == 2 {
      SplitDotted(f.path[0], f.path[1]);
      assert f.path == [f.path[0], f.path[1]];
    } else {
      Text.SplitPlain(f.key, '.');
    }
  }

  /** A block under a key without dots. */
  lemma SetsPlainBlock(n: nat, key: string, body: seq<Line>, es: seq<Entry>)
    requires PlainKey(key) && Sets(body, es)
    ensures Sets([Opens(n, key)] + body + [Closes(n)], Prefixed([key], es))
  {
    Text.SplitPlain(key, '.');
    SetsBlock(n, key, body, es);
  }

  lemma SetsPlainPair(n: nat, key: string, k1: string, v1: string, k2: string, v2: string)
    requires PlainKey(key) && PlainKey(k1) && PlainKey(k2) && Representable(v1) && Representable(v2)
    ensures Sets([Pair(n, key, k1, v1, k2, v2)], [Entry([key, k1], Str(v1)), Entry([key, k2], Str(v2))])
  {
    Text.SplitPlain(key, '.');
    Text.SplitPlain(k1, '.');
    Text.SplitPlain(k2, '.');
    SetsPair(n, key, k1, v1, k2, v2);
    assert [key] + [k1] == [key, k1] && [key] + [k2] == [key, k2];
    assert Prefixed([key], [Entry([k1], Str(v1)), Entry([k2], Str(v2))]) == [Entry([key, k1], Str(v1)), Entry([key, k2], Str(v2))];
  }

  /** A key of two parts with a dot between them. */
  lemma SplitDotted(a: string, b: string)
    requires '.' !in a && '.' !in b
    ensures Text.Split(a + "." + b, ".") == [a, b]
  {
    Text.SplitConcat(a, b, ".");
    Text.SplitPlain(a, '.');
    Text.SplitPlain(b, '.');
  }

  /** `lines`, read from the top, set `es` and leave `blocks` open. */
  ghost predicate Reaches(lines: seq<Line>, es: seq<Entry>, blocks: seq<seq<string>>) {
    AllPrintable(lines) && EffectAll(lines, []) == Done(es, blocks)
  }

  lemma ReachesStart(n: nat, key: string, a: string, b: string)
    requires DottedKey(key, a, b)
    ensures Reaches([Opens(n, key)], [], [[a, b]])
  {
    SplitDotted(a, b);
    EffectOne(Opens(n, key), []);
    assert [] + [[a, b]] == [[a, b]];
  }

  lemma ReachesOpen(lines: seq<Line>, es: seq<Entry>, blocks: seq<seq<string>>, n: nat, key: string)
    requires Reaches(lines, es, blocks) && PlainKey(key)
    ensures Reaches(lines + [Opens(n, key)], es, blocks + [[key]])
  {
    Text.SplitPlain(key, '.');
    EffectOne(Opens(n, key), blocks);
    EffectConcat(lines, [Opens(n, key)], []);
    assert es + [] == es;
  }

  lemma ReachesClose(lines: seq<Line>, es: seq<Entry>, blocks: seq<seq<string>>, last: seq<string>, n: nat)
    requires Reaches(lines, es, blocks + [last])
    ensures Reaches(lines + [Closes(n)], es, blocks)
  {
    EffectOne(Closes(n), blocks + [last]);
    EffectConcat(lines, [Closes(n)], []);
    assert (blocks + [last])[..|blocks|] == blocks;
    assert es + [] == es;
  }

  lemma ReachesOn(lines: seq<Line>, es: seq<Entry>, blocks: seq<seq<string>>, path: seq<string>, more: seq<Line>, made: seq<Entry>)
    requires Reaches(lines, es, blocks) && Sets(more, made) && Flat(blocks) == path
    ensures Reaches(lines + more, es + Prefixed(path, made), blocks)
  {
    EffectConcat(lines, more, []);
  }

  /** The string builder a configuration is printed into. */
  class Builder {
    var text: string
    ghost var lines: seq<Line>

    ghost predicate Valid()
      reads this
    {
      text == Written(lines)
    }

    constructor ()
      ensures Valid() && lines == []
    {
      text := "";
      lines := [];
    }

    method Append(more: seq<Line>)
      requires Valid()
      modifies this
      ensures Valid() && lines == old(lines) + more
    {
      WrittenConcat(lines, more);
      text := text + Written(more);
      lines := lines + more;
    }
  }
}
