/** The findings register: which scenarios may ship without a compose twin. */
module Register {
  import opened Wrappers
  import opened Text

  const HEADING := "### "
  const HEADING_BREAK := "\n### "
  const ID_PREFIX := "E2E-F-"
  const STATUS_FIELD := "- **Status**:"
  const DEFERRAL_FIELD := "- **Compose twin deferred**:"
  const PATH_PREFIX := "scenarios/"

  /* ---- one block ---- */

  /** What the lines of a block have said so far. */
  datatype Scan = Scan(isOpen: bool, deferrals: seq<string>)

  predicate Ends(line: string) { "#" <= TrimSpace(line) }

  /** A line that is neither a heading nor one of the two fields. */
  predicate Prose(line: string) {
    var t := TrimSpace(line);
    !("#" <= t) && !(STATUS_FIELD <= t) && !(DEFERRAL_FIELD <= t)
  }

  function Note(scan: Scan, line: string): Scan {
    var t := TrimSpace(line);
    if STATUS_FIELD <= t then scan.(isOpen := TrimSpace(t[|STATUS_FIELD|..]) == "open")
    else if DEFERRAL_FIELD <= t then scan.(deferrals := scan.deferrals + [CutAfter(t, ':')])
    else scan
  }

  /** Lines up to the first heading of any level; the last status wins. */
  function ScanLines(scan: Scan, lines: seq<string>): Scan
    decreases |lines|
  {
    if lines == [] || Ends(lines[0]) then scan else ScanLines(Note(scan, lines[0]), lines[1..])
  }

  predicate IsSeparator(c: char) { c in "`, .;" }

  function TokenLength(s: string): (n: nat)
    ensures n <= |s|
  {
    if s == "" || IsSeparator(s[0]) then 0 else 1 + TokenLength(s[1..])
  }

  /** strings.FieldsFunc on the separators of a deferral field. */
  function Fields(s: string): seq<string>
    decreases |s|
  {
    if s == "" then []
    else if IsSeparator(s[0]) then Fields(s[1..])
    else [s[..TokenLength(s)]] + Fields(s[TokenLength(s)..])
  }

  predicate NamesScenario(token: string) {
    PATH_PREFIX <= token && token != PATH_PREFIX
  }

  function License(out: map<string, string>, tokens: seq<string>, id: string): map<string, string> {
    if tokens == [] then out
    else
      var token := tokens[|tokens| - 1];
      var before := License(out, tokens[..|tokens| - 1], id);
      if NamesScenario(token) then before[token[|PATH_PREFIX|..] := id] else before
  }

  function AllTokens(deferrals: seq<string>): seq<string> {
    if deferrals == [] then [] else AllTokens(deferrals[..|deferrals| - 1]) + Fields(deferrals[|deferrals| - 1])
  }

  /** The id is cut from the whole block, so a heading without a space runs on into
      the lines below it. */
  function BlockId(block: string): string {
    TrimSpace(CutBefore(block, ' '))
  }

  function ReadBlock(out: map<string, string>, block: string): map<string, string> {
    var id := BlockId(block);
    var scan := ScanLines(Scan(false, []), Split(block, "\n"));
    if ID_PREFIX <= id && scan.isOpen then License(out, AllTokens(scan.deferrals), id) else out
  }

  function ReadBlocks(out: map<string, string>, blocks: seq<string>): map<string, string> {
    if blocks == [] then out
    else ReadBlock(ReadBlocks(out, blocks[..|blocks| - 1]), blocks[|blocks| - 1])
  }

  /* ---- the whole register ---- */

  function Blocks(md: string): seq<string> {
    Split("\n" + md, HEADING_BREAK)[1..]
  }

  function Deferrals(md: string): map<string, string> {
    ReadBlocks(map[], Blocks(md))
  }

  method OpenComposeDeferrals(md: string) returns (out: map<string, string>)
    ensures out == Deferrals(md)
  {
    out := map[];
    var blocks := Blocks(md);
    for b := 0 to |blocks|
      invariant out == ReadBlocks(map[], blocks[..b])
    {
      assert blocks[..b + 1][..b] == blocks[..b];
      var block := blocks[b];
      var id := TrimSpace(CutBefore(block, ' '));
      if !(ID_PREFIX <= id) {
        continue;
      }
      var isOpen, deferrals := ScanBlock(block);
      if !isOpen {
        continue;
      }
      out := LicenseAll(out, deferrals, id);
    }
    assert blocks[..|blocks|] == blocks;
  }

  method ScanBlock(block: string) returns (isOpen: bool, deferrals: seq<string>)
    ensures Scan(isOpen, deferrals) == ScanLines(Scan(false, []), Split(block, "\n"))
  {
    isOpen, deferrals := false, [];
    var lines := Split(block, "\n");
    for i := 0 to |lines|
      invariant ScanLines(Scan(isOpen, deferrals), lines[i..]) == ScanLines(Scan(false, []), lines)
    {
      assert lines[i..][0] == lines[i] && lines[i..][1..] == lines[i + 1..];
      var line := TrimSpace(lines[i]);
      if "#" <= line {
        break;
      }
      if STATUS_FIELD <= line {
        FieldsDiffer(line);
        isOpen := TrimSpace(line[|STATUS_FIELD|..]) == "open";
      }
      if DEFERRAL_FIELD <= line {
        deferrals := deferrals + [CutAfter(line, ':')];
      }
    }
  }

  lemma FieldsDiffer(line: string)
    requires STATUS_FIELD <= line
    ensures !(DEFERRAL_FIELD <= line)
  {
    assert line[4] == STATUS_FIELD[4] != DEFERRAL_FIELD[4];
  }

  method LicenseAll(out0: map<string, string>, deferrals: seq<string>, id: string) returns (out: map<string, string>)
    ensures out == License(out0, AllTokens(deferrals), id)
  {
    out := out0;
    for i := 0 to |deferrals|
      invariant out == License(out0, AllTokens(deferrals[..i]), id)
    {
      var tokens := Fields(deferrals[i]);
      LicenseConcat(out0, AllTokens(deferrals[..i]), tokens, id);
      assert deferrals[..i + 1][..i] == deferrals[..i];
      ghost var before := out;
      for j := 0 to |tokens|
        invariant out == License(before, tokens[..j], id)
      {
        assert tokens[..j + 1][..j] == tokens[..j];
        if NamesScenario(tokens[j]) {
          out := out[tokens[j][|PATH_PREFIX|..] := id];
        }
      }
      assert tokens[..|tokens|] == tokens;
    }
    assert deferrals[..|deferrals|] == deferrals;
  }

  lemma {:induction false} LicenseConcat(out: map<string, string>, a: seq<string>, b: seq<string>, id: string)
    ensures License(out, a + b, id) == License(License(out, a, id), b, id)
  {
    if b == [] {
      assert a + b == a;
    } else {
      assert (a + b)[..|a + b| - 1] == a + b[..|b| - 1];
      LicenseConcat(out, a, b[..|b| - 1], id);
    }
  }

  /* ---- reading line by line ---- */

  /** `line` put in front of the first group. */
  function Push(line: string, groups: seq<seq<string>>): (r: seq<seq<string>>)
    requires groups != []
    ensures |r| == |groups|
  {
    [[line] + groups[0]] + groups[1..]
  }

  /** The lines before the first level-three heading, then one group per heading: its
      line without the marker and the lines below it. */
  function Groups(lines: seq<string>): (r: seq<seq<string>>)
    ensures r != []
    ensures forall g | g in r[1..] :: g != []
  {
    if lines == [] then [[]]
    else
      var rest := Groups(lines[1..]);
      if HEADING <= lines[0] then [[]] + Push(lines[0][|HEADING|..], rest) else Push(lines[0], rest)
  }

  predicate OneLiner(line: string) { '\n' !in line }

  predicate OneLiners(lines: seq<string>) { forall line | line in lines :: OneLiner(line) }

  function Lead(lines: seq<string>): string {
    if lines == [] then "" else "\n" + lines[0] + Lead(lines[1..])
  }

  lemma {:induction false} LeadJoins(lines: seq<string>)
    requires lines != []
    ensures Lead(lines) == "\n" + JoinLines(lines)
  {
    if |lines| == 1 {
      assert Lead(lines[1..]) == "";
      assert "\n" + lines[0] + "" == "\n" + lines[0];
    } else {
      LeadJoins(lines[1..]);
      var x := JoinLines(lines[1..]);
      assert "\n" + lines[0] + ("\n" + x) == "\n" + (lines[0] + "\n" + x);
    }
  }

  function Texts(groups: seq<seq<string>>): (r: seq<string>)
    ensures |r| == |groups|
  {
    seq(|groups|, i requires 0 <= i < |groups| => JoinLines(groups[i]))
  }

  /** The text's pieces at the heading breaks are the groups of its lines. */
  lemma {:induction false} SplitGroups(lines: seq<string>)
    requires OneLiners(lines)
    ensures Split(Lead(lines), HEADING_BREAK) == [Lead(Groups(lines)[0])] + Texts(Groups(lines)[1..])
    decreases |lines|
  {
    if lines == [] {
      assert Texts(Groups(lines)[1..]) == [];
    } else {
      var line, rest := lines[0], lines[1..];
      var g := Groups(rest);
      SplitGroups(rest);
      assert line in lines;
      if HEADING <= line {
        var title := line[|HEADING|..];
        assert line == HEADING + title;
        SplitAtHeading(title, rest);
        TitleTexts(title, g);
      } else {
        SplitAtLine(line, rest);
        assert Push(line, g)[1..] == g[1..];
        assert Lead([line] + g[0]) == "\n" + line + Lead(g[0]) by {
          assert ([line] + g[0])[1..] == g[0];
        }
      }
    }
  }

  lemma SplitAtHeading(title: string, rest: seq<string>)
    requires OneLiner(title)
    ensures Split("\n" + (HEADING + title) + Lead(rest), HEADING_BREAK)
         == [""] + Extend(title, Split(Lead(rest), HEADING_BREAK))
  {
    var t := title + Lead(rest);
    assert "\n" + (HEADING + title) + Lead(rest) == HEADING_BREAK + t;
    SplitMatch(t, HEADING_BREAK);
    SplitPlainPrefix(title, Lead(rest), HEADING_BREAK);
  }

  lemma SplitAtLine(line: string, rest: seq<string>)
    requires OneLiner(line) && !(HEADING <= line)
    ensures Split("\n" + line + Lead(rest), HEADING_BREAK) == Extend("\n" + line, Split(Lead(rest), HEADING_BREAK))
  {
    NoHeadingAhead(line, rest);
    SplitAcrossLine(line, Lead(rest), HEADING_BREAK);
  }

  lemma SplitAcrossLine(line: string, tail: string, sep: string)
    requires OneLiner(line) && sep != "" && sep[0] == '\n' && !(sep <= ['\n'] + (line + tail))
    ensures Split("\n" + line + tail, sep) == Extend("\n" + line, Split(tail, sep))
  {
    assert "\n" + line + tail == ['\n'] + (line + tail);
    SplitStep('\n', line + tail, sep);
    SplitPlainPrefix(line, tail, sep);
    ExtendTwice("\n", line, Split(tail, sep));
  }

  lemma NoHeadingAhead(line: string, rest: seq<string>)
    requires OneLiner(line) && !(HEADING <= line)
    ensures !(HEADING_BREAK <= ['\n'] + (line + Lead(rest)))
  {
    var t := ['\n'] + (line + Lead(rest));
    assert HEADING_BREAK[1..] == HEADING;
    if |line| >= 4 {
      assert t[1..5] == line[..4];
    } else if rest != [] {
      assert t[1 + |line|] == '\n' != HEADING_BREAK[1 + |line|];
    }
  }

  lemma TitleTexts(title: string, g: seq<seq<string>>)
    requires g != [] && forall x | x in g[1..] :: x != []
    ensures [""] + Extend(title, [Lead(g[0])] + Texts(g[1..])) == [Lead([])] + Texts(Push(title, g))
  {
    var block := [title] + g[0];
    LeadJoins(block);
    assert block[1..] == g[0];
    assert "\n" + title + Lead(g[0]) == "\n" + (title + Lead(g[0]));
    assert (("\n" + JoinLines(block))[1..]) == JoinLines(block);
    assert (("\n" + (title + Lead(g[0])))[1..]) == title + Lead(g[0]);
  }

  /** One group read on its own: the status, the deferrals and the id of its block. */
  function ReadGroup(out: map<string, string>, group: seq<string>): map<string, string> {
    var id := BlockId(JoinLines(group));
    var scan := ScanLines(Scan(false, []), group);
    if ID_PREFIX <= id && scan.isOpen then License(out, AllTokens(scan.deferrals), id) else out
  }

  function ReadGroups(out: map<string, string>, groups: seq<seq<string>>): map<string, string> {
    if groups == [] then out
    else ReadGroup(ReadGroups(out, groups[..|groups| - 1]), groups[|groups| - 1])
  }

  lemma {:induction false} GroupsKeepLines(lines: seq<string>)
    requires OneLiners(lines)
    ensures forall g | g in Groups(lines) :: OneLiners(g)
  {
    if lines != [] {
      GroupsKeepLines(lines[1..]);
      assert lines[0] in lines;
      var g := Groups(lines[1..]);
      assert g[0] in g;
    }
  }

  lemma {:induction false} BlocksAreGroups(out: map<string, string>, groups: seq<seq<string>>)
    requires forall g | g in groups :: g != [] && OneLiners(g)
    ensures ReadBlocks(out, Texts(groups)) == ReadGroups(out, groups)
  {
    if groups != [] {
      var front, last := groups[..|groups| - 1], groups[|groups| - 1];
      assert forall g | g in front :: g in groups;
      assert last in groups && OneLiners(last);
      assert forall line | line in last :: OneLiner(line);
      BlocksAreGroups(out, front);
      assert Texts(groups)[..|groups| - 1] == Texts(front);
      BlockIsGroup(ReadGroups(out, front), last);
    }
  }

  lemma BlockIsGroup(out: map<string, string>, group: seq<string>)
    requires group != [] && forall line | line in group :: OneLiner(line)
    ensures ReadBlock(out, JoinLines(group)) == ReadGroup(out, group)
  {
    SplitJoin(group, '\n');
  }

  /** Splitting the text at heading breaks is reading it line by line, for every text:
      a mid-line marker never starts a finding and a heading on the first line does. */
  lemma LineByLine(lines: seq<string>)
    requires lines != [] && OneLiners(lines)
    ensures Deferrals(JoinLines(lines)) == ReadGroups(map[], Groups(lines)[1..])
  {
    LeadJoins(lines);
    SplitGroups(lines);
    GroupsKeepLines(lines);
    BlocksAreGroups(map[], Groups(lines)[1..]);
  }

  lemma EveryTextByLine(md: string)
    ensures Deferrals(md) == ReadGroups(map[], Groups(Split(md, "\n"))[1..])
  {
    JoinSplit(md, "\n");
    SplitPieces(md, '\n');
    LineByLine(Split(md, "\n"));
  }

  /* ---- what no register licenses ---- */

  lemma {:induction false} LicensesNamed(out: map<string, string>, tokens: seq<string>, id: string, name: string)
    ensures name in License(out, tokens, id) ==> name in out || (name != "" && "scenarios/" + name in tokens)
  {
    if tokens != [] {
      var token := tokens[|tokens| - 1];
      LicensesNamed(out, tokens[..|tokens| - 1], id, name);
      assert forall t | t in tokens[..|tokens| - 1] :: t in tokens;
      if NamesScenario(token) && name == token[|PATH_PREFIX|..] {
        assert token == PATH_PREFIX + name;
      }
    }
  }

  lemma {:induction false} LicensesExactly(tokens: seq<string>, id: string, name: string)
    ensures name in License(map[], tokens, id) <==> name != "" && "scenarios/" + name in tokens
  {
    if tokens != [] {
      var n := |tokens| - 1;
      LicensesExactly(tokens[..n], id, name);
      assert tokens == tokens[..n] + [tokens[n]];
      assert ("scenarios/" + name)[|PATH_PREFIX|..] == name;
      if NamesScenario(tokens[n]) {
        assert tokens[n] == PATH_PREFIX + tokens[n][|PATH_PREFIX|..];
      }
    }
  }

  lemma {:induction false} TokensOfFields(deferrals: seq<string>, token: string)
    ensures token in AllTokens(deferrals) <==> exists field | field in deferrals :: token in Fields(field)
  {
    if deferrals != [] {
      var n := |deferrals| - 1;
      TokensOfFields(deferrals[..n], token);
      assert forall field :: field in deferrals <==> field in deferrals[..n] || field == deferrals[n];
      if field :| field in deferrals[..n] && token in Fields(field) {
        assert field in deferrals;
      }
    }
  }

  /** A finding that is open and has an id of the family licenses every scenario that any
      of its deferral fields names, under that id; another finding licenses nothing. */
  lemma GroupLicenses(group: seq<string>, name: string)
    ensures var id, scan := BlockId(JoinLines(group)), ScanLines(Scan(false, []), group);
      && (name in ReadGroup(map[], group)
          <==> "E2E-F-" <= id && scan.isOpen && name != ""
               && exists field | field in scan.deferrals :: "scenarios/" + name in Fields(field))
      && (name in ReadGroup(map[], group) ==> ReadGroup(map[], group)[name] == id)
  {
    var id, scan := BlockId(JoinLines(group)), ScanLines(Scan(false, []), group);
    LicensesExactly(AllTokens(scan.deferrals), id, name);
    LicenseCarriesId(AllTokens(scan.deferrals), id);
    TokensOfFields(scan.deferrals, "scenarios/" + name);
  }

  lemma {:induction false} BlocksLicense(blocks: seq<string>, name: string)
    ensures name in ReadBlocks(map[], blocks) ==>
      name != "" && "E2E-F-" <= ReadBlocks(map[], blocks)[name]
  {
    if blocks != [] {
      var front, last := blocks[..|blocks| - 1], blocks[|blocks| - 1];
      var tokens := AllTokens(ScanLines(Scan(false, []), Split(last, "\n")).deferrals);
      BlocksLicense(front, name);
      LicensesNamed(map[], tokens, BlockId(last), name);
      LicenseOver(ReadBlocks(map[], front), tokens, BlockId(last));
      LicenseCarriesId(tokens, BlockId(last));
    }
  }

  /** Whatever the text, no scenario without a name is licensed, and every licence is under
      an id of the family. */
  lemma NamedLicences(md: string, name: string)
    requires name in Deferrals(md)
    ensures name != "" && "E2E-F-" <= Deferrals(md)[name]
  {
    BlocksLicense(Blocks(md), name);
  }

  /* ---- registers put together ---- */

  lemma {:induction false} LicenseOver(out: map<string, string>, tokens: seq<string>, id: string)
    ensures License(out, tokens, id) == out + License(map[], tokens, id)
  {
    if tokens != [] {
      LicenseOver(out, tokens[..|tokens| - 1], id);
    }
  }

  lemma {:induction false} BlocksOver(out: map<string, string>, blocks: seq<string>)
    ensures ReadBlocks(out, blocks) == out + ReadBlocks(map[], blocks)
  {
    if blocks != [] {
      var front, last := blocks[..|blocks| - 1], blocks[|blocks| - 1];
      BlocksOver(out, front);
      var tokens := AllTokens(ScanLines(Scan(false, []), Split(last, "\n")).deferrals);
      LicenseOver(ReadBlocks(out, front), tokens, BlockId(last));
      LicenseOver(ReadBlocks(map[], front), tokens, BlockId(last));
    }
  }

  lemma {:induction false} BlocksConcat(out: map<string, string>, a: seq<string>, b: seq<string>)
    ensures ReadBlocks(out, a + b) == ReadBlocks(ReadBlocks(out, a), b)
  {
    if b == [] {
      assert a + b == a;
    } else {
      assert (a + b)[..|a + b| - 1] == a + b[..|b| - 1];
      BlocksConcat(out, a, b[..|b| - 1]);
    }
  }

  /** A register followed by another one, the second starting with a heading: the
      licences of both, the later winning. */
  lemma DeferralsCompose(a: string, b: string)
    ensures Deferrals(a + HEADING_BREAK + b) == Deferrals(a) + Deferrals(HEADING + b)
  {
    var x, y := Split("\n" + a, HEADING_BREAK), Split(b, HEADING_BREAK);
    BlocksOfBoth(a, b);
    BlocksConcat(map[], x[1..], y);
    BlocksOver(ReadBlocks(map[], x[1..]), y);
  }

  lemma BlocksOfBoth(a: string, b: string)
    ensures Blocks(a + HEADING_BREAK + b) == Blocks(a) + Split(b, HEADING_BREAK)
    ensures Blocks(HEADING + b) == Split(b, HEADING_BREAK)
  {
    SplitConcat("\n" + a, b, HEADING_BREAK);
    Regroup("\n", a, HEADING_BREAK, b);
    AfterFirst(Split("\n" + a, HEADING_BREAK), Split(b, HEADING_BREAK));
    SplitMatch(b, HEADING_BREAK);
    BreakThenHeading(b);
    AfterFirst([""], Split(b, HEADING_BREAK));
  }

  lemma AfterFirst(x: seq<string>, y: seq<string>)
    requires x != []
    ensures (x + y)[1..] == x[1..] + y
    ensures |x| == 1 ==> (x + y)[1..] == y
  {
  }

  lemma BreakThenHeading(b: string)
    ensures "\n" + (HEADING + b) == HEADING_BREAK + b
  {
  }

  /* ---- prose ---- */

  /** `longer` is `groups` with `line` inserted into its `k`th group, below the title. */
  ghost predicate InsertedInto(groups: seq<seq<string>>, longer: seq<seq<string>>, k: nat, line: string) {
    && k < |groups| == |longer|
    && (forall i | 0 <= i < |groups| && i != k :: groups[i] == longer[i])
    && exists j | 0 <= j <= |groups[k]| :: longer[k] == groups[k][..j] + [line] + groups[k][j..] && (k > 0 ==> j > 0)
  }

  /** The heading a line after these would stand under, without its marker. */
  function Enclosing(lines: seq<string>): Option<string> {
    if lines == [] then None
    else
      var later := Enclosing(lines[1..]);
      if later.Some? then later else if HEADING <= lines[0] then Some(lines[0][|HEADING|..]) else None
  }

  lemma {:induction false} EnclosingOnOneLine(lines: seq<string>)
    requires OneLiners(lines)
    ensures Enclosing(lines).Some? ==> OneLiner(Enclosing(lines).value)
  {
    if lines != [] {
      EnclosingOnOneLine(lines[1..]);
      assert lines[0] in lines;
    }
  }

  /** The insertion is below the heading of its group, or above all headings. */
  ghost predicate LandsBelow(groups: seq<seq<string>>, longer: seq<seq<string>>, k: nat, line: string, heading: Option<string>) {
    && InsertedInto(groups, longer, k, line)
    && (k > 0 <==> heading.Some?)
    && (k > 0 ==> groups[k] != [] && groups[k][0] == heading.value)
  }

  /** The groups after one more line in front. */
  function Grown(first: string, groups: seq<seq<string>>): (r: seq<seq<string>>)
    requires groups != []
  {
    if HEADING <= first then [[]] + Push(first[|HEADING|..], groups) else Push(first, groups)
  }

  lemma GroupsCons(first: string, lines: seq<string>)
    ensures Groups([first] + lines) == Grown(first, Groups(lines))
  {
    assert ([first] + lines)[1..] == lines;
  }

  lemma {:induction false} InsertionLandsInOneGroup(a: seq<string>, line: string, b: seq<string>) returns (k: nat)
    requires !(HEADING <= line)
    ensures LandsBelow(Groups(a + b), Groups(a + [line] + b), k, line, Enclosing(a))
  {
    if a == [] {
      k := 0;
      GroupsCons(line, b);
      assert a + b == b && a + [line] + b == [line] + b;
      var g := Groups(b);
      assert Grown(line, g)[0] == g[0][..0] + [line] + g[0][0..];
    } else {
      var k' := InsertionLandsInOneGroup(a[1..], line, b);
      assert a + b == [a[0]] + (a[1..] + b) && a + [line] + b == [a[0]] + (a[1..] + [line] + b);
      GroupsCons(a[0], a[1..] + b);
      GroupsCons(a[0], a[1..] + [line] + b);
      k := GrownInsertion(Groups(a[1..] + b), Groups(a[1..] + [line] + b), k', line, Enclosing(a[1..]), a[0]);
    }
  }

  lemma GrownInsertion(g: seq<seq<string>>, h: seq<seq<string>>, k: nat, line: string, heading: Option<string>, first: string)
    returns (k': nat)
    requires g != [] && LandsBelow(g, h, k, line, heading)
    ensures LandsBelow(Grown(first, g), Grown(first, h), k', line,
              if heading.Some? then heading else if HEADING <= first then Some(first[|HEADING|..]) else None)
  {
    if HEADING <= first {
      k' := k + 1;
      PushedInsertion(g, h, k, line, first[|HEADING|..]);
      InsertionShifted(Push(first[|HEADING|..], g), Push(first[|HEADING|..], h), k, line);
    } else {
      k' := k;
      PushedInsertion(g, h, k, line, first);
    }
  }

  /** Below the pushed line, whichever group the insertion is in. */
  lemma PushedInsertion(g: seq<seq<string>>, h: seq<seq<string>>, k: nat, line: string, head: string)
    requires g != [] && InsertedInto(g, h, k, line)
    ensures var x, y := Push(head, g), Push(head, h);
      && InsertedInto(x, y, k, line)
      && exists j | 0 < j <= |x[k]| :: y[k] == x[k][..j] + [line] + x[k][j..]
  {
    var x, y := Push(head, g), Push(head, h);
    var j :| 0 <= j <= |g[k]| && h[k] == g[k][..j] + [line] + g[k][j..] && (k > 0 ==> j > 0);
    if k == 0 {
      OneBelow(head, g[0], j, line);
      assert y[0] == x[0][..j + 1] + [line] + x[0][j + 1..];
    } else {
      assert y[k] == x[k][..j] + [line] + x[k][j..];
    }
  }

  lemma OneBelow(head: string, group: seq<string>, j: nat, line: string)
    requires j <= |group|
    ensures [head] + (group[..j] + [line] + group[j..]) == ([head] + group)[..j + 1] + [line] + ([head] + group)[j + 1..]
  {
    assert ([head] + group)[..j + 1] == [head] + group[..j] && ([head] + group)[j + 1..] == group[j..];
  }

  lemma InsertionShifted(x: seq<seq<string>>, y: seq<seq<string>>, k: nat, line: string)
    requires InsertedInto(x, y, k, line)
    requires exists j | 0 < j <= |x[k]| :: y[k] == x[k][..j] + [line] + x[k][j..]
    ensures InsertedInto([[]] + x, [[]] + y, k + 1, line)
  {
    var j :| 0 < j <= |x[k]| && y[k] == x[k][..j] + [line] + x[k][j..];
    assert ([[]] + x)[k + 1] == x[k] && ([[]] + y)[k + 1] == y[k];
    forall i | 0 <= i < |[[]] + x| && i != k + 1 ensures ([[]] + x)[i] == ([[]] + y)[i] {
      if i > 0 {
        assert x[i - 1] == y[i - 1];
      }
    }
  }

  lemma {:induction false} ScanSkipsProse(scan: Scan, a: seq<string>, line: string, b: seq<string>)
    requires Prose(line)
    ensures ScanLines(scan, a + [line] + b) == ScanLines(scan, a + b)
    decreases |a|
  {
    if a == [] {
      assert a + [line] + b == [line] + b && ([line] + b)[1..] == b && a + b == b;
    } else {
      assert (a + [line] + b)[1..] == a[1..] + [line] + b && (a + b)[1..] == a[1..] + b;
      ScanSkipsProse(Note(scan, a[0]), a[1..], line, b);
    }
  }

  lemma {:induction false} CutInside(s: string, t: string, c: char)
    requires c in s
    ensures CutBefore(s + t, c) == CutBefore(s, c)
  {
    if s[0] != c {
      assert c in s[1..];
      assert (s + t)[1..] == s[1..] + t;
      CutInside(s[1..], t, c);
    }
  }

  lemma IdFromTitle(group: seq<string>)
    requires group != [] && ' ' in group[0]
    ensures BlockId(JoinLines(group)) == BlockId(group[0])
  {
    if |group| > 1 {
      assert JoinLines(group) == group[0] + ("\n" + JoinLines(group[1..]));
      CutInside(group[0], "\n" + JoinLines(group[1..]), ' ');
    }
  }

  lemma GroupIgnoresProse(out: map<string, string>, group: seq<string>, j: nat, line: string)
    requires 0 < j <= |group| && OneLiner(group[0]) && SafeHeading(group[0]) && Prose(line)
    ensures ReadGroup(out, group[..j] + [line] + group[j..]) == ReadGroup(out, group)
  {
    SafeGroup(out, group[0], group[1..], j - 1, line);
    assert group == [group[0]] + group[1..];
    assert group[..j] + [line] + group[j..] == [group[0]] + (group[1..][..j - 1] + [line] + group[1..][j - 1..]);
  }

  ghost predicate ReadAlike(x: seq<string>, y: seq<string>) {
    forall out :: ReadGroup(out, x) == ReadGroup(out, y)
  }

  ghost predicate AllAlike(x: seq<seq<string>>, y: seq<seq<string>>) {
    |x| == |y| && forall i | 0 <= i < |x| :: ReadAlike(x[i], y[i])
  }

  lemma {:induction false} GroupsReadAlike(out: map<string, string>, x: seq<seq<string>>, y: seq<seq<string>>)
    requires AllAlike(x, y)
    ensures ReadGroups(out, x) == ReadGroups(out, y)
  {
    if x != [] {
      var n := |x| - 1;
      GroupsReadAlike(out, x[..n], y[..n]);
      assert ReadAlike(x[n], y[n]);
    }
  }

  lemma SameReadsAlike(x: seq<string>)
    ensures ReadAlike(x, x)
  {
  }

  lemma GrownReadsAlike(g: seq<seq<string>>, h: seq<seq<string>>, k: nat, line: string)
    requires InsertedInto(g, h, k, line) && k > 0 && Prose(line)
    requires g[k] != [] && OneLiner(g[k][0]) && SafeHeading(g[k][0])
    ensures ReadAlike(g[k], h[k])
  {
    var j :| 0 <= j <= |g[k]| && h[k] == g[k][..j] + [line] + g[k][j..] && (k > 0 ==> j > 0);
    forall o ensures ReadGroup(o, g[k]) == ReadGroup(o, h[k]) {
      GroupIgnoresProse(o, g[k], j, line);
    }
  }

  lemma GroupsIgnoreProse(out: map<string, string>, g: seq<seq<string>>, h: seq<seq<string>>, k: nat, line: string)
    requires InsertedInto(g, h, k, line) && k > 0 && Prose(line)
    requires g[k] != [] && OneLiner(g[k][0]) && SafeHeading(g[k][0])
    ensures ReadGroups(out, g[1..]) == ReadGroups(out, h[1..])
  {
    TailsAlike(g, h, k, line);
    GroupsReadAlike(out, g[1..], h[1..]);
  }

  lemma TailsAlike(g: seq<seq<string>>, h: seq<seq<string>>, k: nat, line: string)
    requires InsertedInto(g, h, k, line) && k > 0 && Prose(line)
    requires g[k] != [] && OneLiner(g[k][0]) && SafeHeading(g[k][0])
    ensures AllAlike(g[1..], h[1..])
  {
    forall i | 0 < i < |g| ensures ReadAlike(g[i], h[i]) {
      if i == k {
        GrownReadsAlike(g, h, k, line);
      } else {
        SameReadsAlike(g[i]);
      }
    }
    AlikeFromSecond(g, h);
  }

  lemma AlikeFromSecond(g: seq<seq<string>>, h: seq<seq<string>>)
    requires 0 < |g| == |h| && forall i | 0 < i < |g| :: ReadAlike(g[i], h[i])
    ensures AllAlike(g[1..], h[1..])
  {
  }

  /** Prose can be written anywhere in a register: a line that is neither a heading nor one
      of the two fields changes nothing of what is licensed, if the heading it stands under
      has a space or cannot be an id. The other headings do not matter. */
  lemma ProseIgnored(a: seq<string>, line: string, b: seq<string>)
    requires OneLiners(a) && OneLiners(b) && OneLiner(line) && Prose(line)
    requires Enclosing(a).Some? ==> SafeHeading(Enclosing(a).value)
    ensures Deferrals(JoinLines(a + [line] + b)) == Deferrals(JoinLines(a + b))
  {
    if HEADING <= line {
      HeadingIsNotProse(line);
    }
    var k := InsertionLandsInOneGroup(a, line, b);
    LineByLine(if a + b == [] then [""] else a + b);
    LineByLine(a + [line] + b);
    EnclosingOnOneLine(a);
    LandedIgnored(Groups(a + b), Groups(a + [line] + b), k, line, Enclosing(a));
  }

  lemma LandedIgnored(g: seq<seq<string>>, h: seq<seq<string>>, k: nat, line: string, heading: Option<string>)
    requires LandsBelow(g, h, k, line, heading) && Prose(line)
    requires heading.Some? ==> OneLiner(heading.value) && SafeHeading(heading.value)
    ensures ReadGroups(map[], g[1..]) == ReadGroups(map[], h[1..])
  {
    if k > 0 {
      GroupsIgnoreProse(map[], g, h, k, line);
    } else {
      assert g[1..] == h[1..];
    }
  }

  lemma HeadingIsNotProse(line: string)
    ensures HEADING <= line ==> !Prose(line)
  {
    if HEADING <= line {
      assert TrimLeft(line) == line;
      TrimKeepsFront(line);
    }
  }

  /** A text that starts with visible text keeps its start. */
  lemma {:induction false} TrimKeepsFront(s: string)
    requires s != "" && !IsSpace(s[0])
    ensures TrimSpace(s) != "" && TrimSpace(s) <= s && TrimSpace(s)[0] == s[0]
  {
    TrimRightKeeps(s);
  }

  lemma {:induction false} TrimRightKeeps(s: string)
    requires s != "" && !IsSpace(s[0])
    ensures TrimRight(s) != "" && TrimRight(s) <= s
  {
    if IsSpace(s[|s| - 1]) {
      TrimRightKeeps(s[..|s| - 1]);
    }
  }

  /* ---- exactly which findings survive prose ---- */

  function FindingText(heading: string, body: seq<string>): string {
    JoinLines([HEADING + heading] + body)
  }

  predicate NoHeadings(body: seq<string>) {
    forall line | line in body :: !(HEADING <= line)
  }

  /** Writing prose into the finding, anywhere below its heading, licenses the same. */
  ghost predicate SurvivesProse(heading: string, body: seq<string>) {
    forall j, line | 0 <= j <= |body| && OneLiner(line) && Prose(line) ::
      Deferrals(FindingText(heading, body[..j] + [line] + body[j..])) == Deferrals(FindingText(heading, body))
  }

  ghost predicate LicensesAny(heading: string, body: seq<string>) {
    var scan := ScanLines(Scan(false, []), [heading] + body);
    scan.isOpen && exists token | token in AllTokens(scan.deferrals) :: NamesScenario(token)
  }

  lemma {:induction false} GroupsWithoutHeadings(body: seq<string>)
    requires NoHeadings(body)
    ensures Groups(body) == [body]
  {
    if body != [] {
      assert body[0] in body;
      assert forall line | line in body[1..] :: line in body;
      GroupsWithoutHeadings(body[1..]);
      assert [body[0]] + body[1..] == body;
      assert Groups(body) == Push(body[0], [body[1..]]);
    }
  }

  lemma OneFinding(heading: string, body: seq<string>)
    requires OneLiner(heading) && OneLiners(body) && NoHeadings(body)
    ensures Deferrals(FindingText(heading, body)) == ReadGroup(map[], [heading] + body)
  {
    var lines := [HEADING + heading] + body;
    assert lines[1..] == body && (HEADING + heading)[|HEADING|..] == heading;
    GroupsWithoutHeadings(body);
    assert OneLiner(HEADING + heading);
    LineByLine(lines);
    var group := [heading] + body;
    assert Groups(lines)[1..] == [group];
    assert [group][..0] == [];
  }

  lemma {:induction false} LicenseCarriesId(tokens: seq<string>, id: string)
    ensures forall name | name in License(map[], tokens, id) :: License(map[], tokens, id)[name] == id
    ensures License(map[], tokens, id) == map[] <==> forall token | token in tokens :: !NamesScenario(token)
  {
    if tokens != [] {
      var n := |tokens| - 1;
      LicenseCarriesId(tokens[..n], id);
      assert tokens == tokens[..n] + [tokens[n]];
      var before := License(map[], tokens[..n], id);
      if NamesScenario(tokens[n]) {
        assert tokens[n][|PATH_PREFIX|..] in License(map[], tokens, id);
      }
    }
  }

  /** The id of a finding whose heading has no space reaches into the line below. */
  lemma IdRunsOn(heading: string, word: string, rest: seq<string>)
    requires ' ' !in heading && ' ' !in word
    ensures BlockId(JoinLines([heading, word + " x"] + rest)) == TrimSpace(heading + "\n" + word)
  {
    var group := [heading, word + " x"] + rest;
    var tail := JoinLines(group[1..]);
    var after := if rest == [] then "" else "\n" + JoinLines(rest);
    assert group[1..] == [word + " x"] + rest && group[1..][1..] == rest;
    assert tail == word + " x" + after;
    assert JoinLines(group) == (heading + "\n" + word) + [' '] + ("x" + after);
    CutAtFirst(heading + "\n" + word, "x" + after, ' ');
  }

  lemma {:induction false} TrimLeftOver(s: string, t: string)
    ensures TrimLeft(s + t) == if TrimLeft(s) == "" then TrimLeft(t) else TrimLeft(s) + t
  {
    if s == "" {
      assert s + t == t;
    } else if IsSpace(s[0]) {
      assert (s + t)[1..] == s[1..] + t;
      TrimLeftOver(s[1..], t);
    }
  }

  lemma {:induction false} TrimLeftShows(s: string)
    ensures TrimLeft(s) == "" || !IsSpace(TrimLeft(s)[0])
    ensures forall c | c in TrimLeft(s) :: c in s
  {
    if s != "" && IsSpace(s[0]) {
      TrimLeftShows(s[1..]);
    }
  }

  /** Text without blanks at either end is not trimmed. */
  lemma TrimTight(s: string)
    requires s != "" && !IsSpace(s[0]) && !IsSpace(s[|s| - 1])
    ensures TrimSpace(s) == s
  {
  }

  lemma IdOfRunOn(heading: string, word: string)
    requires word != "" && !IsSpace(word[0]) && !IsSpace(word[|word| - 1])
    ensures TrimSpace(heading + "\n" + word)
         == if TrimLeft(heading) == "" then word else TrimLeft(heading) + "\n" + word
  {
    assert heading + "\n" + word == heading + ("\n" + word);
    TrimLeftOver(heading, "\n" + word);
    BreakTrimmed(word);
    if TrimLeft(heading) != "" {
      EndKept(TrimLeft(heading), word);
    }
  }

  lemma BreakTrimmed(word: string)
    requires word != "" && !IsSpace(word[0]) && !IsSpace(word[|word| - 1])
    ensures TrimLeft("\n" + word) == word && TrimRight(word) == word
  {
    assert ("\n" + word)[1..] == word;
  }

  lemma EndKept(t: string, word: string)
    requires word != "" && !IsSpace(word[|word| - 1])
    ensures TrimRight(t + ("\n" + word)) == t + "\n" + word
  {
    var s := t + ("\n" + word);
    assert s[|s| - 1] == word[|word| - 1];
    assert s == t + "\n" + word;
  }

  /** A heading whose visible start is not an id never licenses anything. */
  lemma InertHeading(heading: string, body: seq<string>)
    requires ' ' !in heading && OneLiner(heading)
    requires TrimLeft(heading) != "" && !(ID_PREFIX <= TrimLeft(heading))
    ensures !(ID_PREFIX <= BlockId(JoinLines([heading] + body)))
  {
    var block := JoinLines([heading] + body);
    var after := if body == [] then "" else "\n" + JoinLines(body);
    assert ([heading] + body)[1..] == body;
    assert block == heading + after;
    CutPast(heading, after, ' ');
    var tail := CutBefore(after, ' ');
    TrimLeftOver(heading, tail);
    TrimLeftShows(heading);
    assert tail == "" || tail[0] == '\n';
    InertId(TrimLeft(heading), tail);
  }

  lemma InertId(t: string, tail: string)
    requires t != "" && !IsSpace(t[0]) && !(ID_PREFIX <= t)
    requires tail == "" || tail[0] == '\n'
    ensures !(ID_PREFIX <= TrimRight(t + tail))
  {
    TrimRightKeeps(t + tail);
    NoIdAcrossLines(t, tail);
  }

  lemma NoIdAcrossLines(t: string, tail: string)
    requires !(ID_PREFIX <= t) && (tail == "" || tail[0] == '\n')
    ensures !(ID_PREFIX <= t + tail)
  {
    if |t| >= |ID_PREFIX| {
      assert (t + tail)[..|ID_PREFIX|] == t[..|ID_PREFIX|];
    } else if tail != "" {
      assert (t + tail)[|t|] == '\n' != ID_PREFIX[|t|];
    }
  }

  lemma {:induction false} CutPast(s: string, t: string, c: char)
    requires c !in s
    ensures CutBefore(s + t, c) == s + CutBefore(t, c)
  {
    if s == "" {
      assert s + t == t;
    } else {
      assert s[0] in s;
      assert (s + t)[1..] == s[1..] + t;
      CutPast(s[1..], t, c);
    }
  }

  predicate SafeHeading(heading: string) {
    ' ' in heading || (TrimLeft(heading) != "" && !(ID_PREFIX <= TrimLeft(heading)))
  }

  lemma SafeFindingSurvives(heading: string, body: seq<string>)
    requires OneLiner(heading) && OneLiners(body) && NoHeadings(body)
    requires SafeHeading(heading) || !LicensesAny(heading, body)
    ensures SurvivesProse(heading, body)
  {
    forall j, line | 0 <= j <= |body| && OneLiner(line) && Prose(line)
      ensures Deferrals(FindingText(heading, body[..j] + [line] + body[j..])) == Deferrals(FindingText(heading, body))
    {
      WithProse(heading, body, j, line);
      SafeGroup(map[], heading, body, j, line);
    }
  }

  lemma WithProse(heading: string, body: seq<string>, j: nat, line: string)
    requires OneLiner(heading) && OneLiners(body) && NoHeadings(body)
    requires j <= |body| && OneLiner(line) && Prose(line)
    ensures Deferrals(FindingText(heading, body)) == ReadGroup(map[], [heading] + body)
    ensures Deferrals(FindingText(heading, body[..j] + [line] + body[j..]))
         == ReadGroup(map[], [heading] + (body[..j] + [line] + body[j..]))
  {
    var longer := body[..j] + [line] + body[j..];
    HeadingIsNotProse(line);
    assert forall x | x in longer :: x in body || x == line;
    OneFinding(heading, body);
    OneFinding(heading, longer);
  }

  lemma ScanWithProse(heading: string, body: seq<string>, j: nat, line: string)
    requires j <= |body| && Prose(line)
    ensures ScanLines(Scan(false, []), [heading] + (body[..j] + [line] + body[j..])) == ScanLines(Scan(false, []), [heading] + body)
  {
    Halves(body, j);
    ScanWithProseAt(heading, body[..j], line, body[j..], body);
  }

  lemma Halves(body: seq<string>, j: nat)
    requires j <= |body|
    ensures body == body[..j] + body[j..]
  {
  }

  lemma ScanWithProseAt(heading: string, x: seq<string>, line: string, y: seq<string>, body: seq<string>)
    requires Prose(line) && body == x + y
    ensures ScanLines(Scan(false, []), [heading] + (x + [line] + y)) == ScanLines(Scan(false, []), [heading] + body)
  {
    ScanSkipsProse(Scan(false, []), [heading] + x, line, y);
    Regrouped(heading, x, [line], y);
  }

  lemma Regrouped(h: string, x: seq<string>, y: seq<string>, z: seq<string>)
    ensures [h] + x + y + z == [h] + (x + y + z)
    ensures [h] + x + z == [h] + (x + z)
  {
  }

  lemma SafeGroup(out: map<string, string>, heading: string, body: seq<string>, j: nat, line: string)
    requires OneLiner(heading) && j <= |body| && Prose(line)
    requires SafeHeading(heading) || !LicensesAny(heading, body)
    ensures ReadGroup(out, [heading] + (body[..j] + [line] + body[j..])) == ReadGroup(out, [heading] + body)
  {
    ScanWithProse(heading, body, j, line);
    ScannedAlike(out, heading, body, body[..j] + [line] + body[j..]);
  }

  /** Under a safe heading the fields alone decide. */
  lemma ScannedAlike(out: map<string, string>, heading: string, body: seq<string>, other: seq<string>)
    requires OneLiner(heading) && (SafeHeading(heading) || !LicensesAny(heading, body))
    requires ScanLines(Scan(false, []), [heading] + other) == ScanLines(Scan(false, []), [heading] + body)
    ensures ReadGroup(out, [heading] + other) == ReadGroup(out, [heading] + body)
  {
    var group, longer := [heading] + body, [heading] + other;
    if ' ' in heading {
      IdFromTitle(group);
      IdFromTitle(longer);
    } else if SafeHeading(heading) {
      InertHeading(heading, body);
      InertHeading(heading, other);
    } else if ScanLines(Scan(false, []), group).isOpen {
      var tokens := AllTokens(ScanLines(Scan(false, []), group).deferrals);
      NothingLicensed(out, tokens, BlockId(JoinLines(group)));
      NothingLicensed(out, tokens, BlockId(JoinLines(longer)));
    }
  }

  /* ---- where a finding ends ---- */

  lemma {:induction false} ScanStops(scan: Scan, a: seq<string>, h: string, b: seq<string>)
    requires "#" <= TrimSpace(h)
    ensures ScanLines(scan, a + [h] + b) == ScanLines(scan, a)
    decreases |a|
  {
    if a == [] {
      assert (a + [h] + b)[0] == h;
    } else if !Ends(a[0]) {
      assert (a + [h] + b)[0] == a[0] && (a + [h] + b)[1..] == a[1..] + [h] + b;
      ScanStops(Note(scan, a[0]), a[1..], h, b);
    } else {
      assert (a + [h] + b)[0] == a[0];
    }
  }

  /** Nothing below the next heading of another level is read: not a status that would
      reopen the finding, nor a deferral. */
  lemma FindingEnds(heading: string, body: seq<string>, h: string, tail: seq<string>)
    requires OneLiner(heading) && OneLiners(body + [h] + tail) && NoHeadings(body + [h] + tail)
    requires "#" <= TrimSpace(h) && (SafeHeading(heading) || !LicensesAny(heading, body))
    ensures Deferrals(FindingText(heading, body + [h] + tail)) == Deferrals(FindingText(heading, body))
  {
    PartOf(body, [h] + tail);
    assert body + ([h] + tail) == body + [h] + tail;
    ScanStops(Scan(false, []), [heading] + body, h, tail);
    Regrouped(heading, body, [h], tail);
    FindingScannedAlike(heading, body, body + [h] + tail);
  }

  lemma PartOf(x: seq<string>, y: seq<string>)
    ensures OneLiners(x + y) ==> OneLiners(x)
    ensures NoHeadings(x + y) ==> NoHeadings(x)
  {
    assert forall line | line in x :: line in x + y;
  }

  lemma FindingScannedAlike(heading: string, body: seq<string>, other: seq<string>)
    requires OneLiner(heading) && (SafeHeading(heading) || !LicensesAny(heading, body))
    requires OneLiners(body) && NoHeadings(body) && OneLiners(other) && NoHeadings(other)
    requires ScanLines(Scan(false, []), [heading] + other) == ScanLines(Scan(false, []), [heading] + body)
    ensures Deferrals(FindingText(heading, other)) == Deferrals(FindingText(heading, body))
  {
    OneFinding(heading, body);
    OneFinding(heading, other);
    ScannedAlike(map[], heading, body, other);
  }

  /** The same inside a register, whatever comes before the finding and after it. */
  lemma SectionIgnored(before: string, heading: string, body: seq<string>, h: string, tail: seq<string>, after: string)
    requires OneLiner(heading) && OneLiners(body + [h] + tail) && NoHeadings(body + [h] + tail)
    requires "#" <= TrimSpace(h) && (SafeHeading(heading) || !LicensesAny(heading, body))
    ensures Deferrals(before + "\n" + FindingText(heading, body + [h] + tail) + HEADING_BREAK + after)
         == Deferrals(before + "\n" + FindingText(heading, body) + HEADING_BREAK + after)
  {
    FindingEnds(heading, body, h, tail);
    FindingPlaced(before, heading, body, after);
    FindingPlaced(before, heading, body + [h] + tail, after);
  }

  lemma FindingPlaced(before: string, heading: string, body: seq<string>, after: string)
    ensures Deferrals(before + "\n" + FindingText(heading, body) + HEADING_BREAK + after)
         == Deferrals(before) + Deferrals(FindingText(heading, body)) + Deferrals(HEADING + after)
  {
    var rest := if body == [] then heading else heading + "\n" + JoinLines(body);
    FindingTextStarts(heading, body);
    Glued(before, rest);
    DeferralsCompose(before, rest);
    DeferralsCompose(before + HEADING_BREAK + rest, after);
  }

  lemma Glued(before: string, rest: string)
    ensures before + "\n" + (HEADING + rest) == before + HEADING_BREAK + rest
  {
    BreakThenHeading(rest);
    assert before + "\n" + (HEADING + rest) == before + ("\n" + (HEADING + rest));
    assert before + HEADING_BREAK + rest == before + (HEADING_BREAK + rest);
  }

  lemma FindingTextStarts(heading: string, body: seq<string>)
    ensures FindingText(heading, body) == HEADING + (if body == [] then heading else heading + "\n" + JoinLines(body))
  {
    if body != [] {
      JoinCons(HEADING + heading, body, "\n");
    }
  }

  lemma NothingLicensed(out: map<string, string>, tokens: seq<string>, id: string)
    requires forall token | token in tokens :: !NamesScenario(token)
    ensures License(out, tokens, id) == out
  {
    LicenseOver(out, tokens, id);
    LicenseCarriesId(tokens, id);
  }

  /** Otherwise one of two one-word lines below the heading changes the id. */
  lemma UnsafeFindingBreaks(heading: string, body: seq<string>)
    requires OneLiner(heading) && OneLiners(body) && NoHeadings(body)
    requires !SafeHeading(heading) && LicensesAny(heading, body)
    ensures !SurvivesProse(heading, body)
  {
    var tokens := AllTokens(ScanLines(Scan(false, []), [heading] + body).deferrals);
    TwoIds(heading);
    var id1, id2 := TrimSpace(heading + "\n" + "E2E-F-1"), TrimSpace(heading + "\n" + "E2E-F-2");
    LicensesDiffer(tokens, id1, id2);
    IntrudedId(heading, body, "E2E-F-1");
    IntrudedId(heading, body, "E2E-F-2");
    SurvivorIgnores(heading, body, "E2E-F-1" + " x");
    SurvivorIgnores(heading, body, "E2E-F-2" + " x");
  }

  lemma SurvivorIgnores(heading: string, body: seq<string>, line: string)
    requires OneLiner(line) && Prose(line)
    ensures SurvivesProse(heading, body)
        ==> Deferrals(FindingText(heading, body[..0] + [line] + body[0..])) == Deferrals(FindingText(heading, body))
  {
  }

  lemma TwoIds(heading: string)
    ensures TrimSpace(heading + "\n" + "E2E-F-1") != TrimSpace(heading + "\n" + "E2E-F-2")
  {
    IdOfRunOn(heading, "E2E-F-1");
    IdOfRunOn(heading, "E2E-F-2");
    LastChar(TrimLeft(heading) + "\n", "E2E-F-1");
    LastChar(TrimLeft(heading) + "\n", "E2E-F-2");
  }

  lemma LastChar(s: string, word: string)
    requires word != ""
    ensures (s + word)[|s + word| - 1] == word[|word| - 1]
  {
  }

  lemma LicensesDiffer(tokens: seq<string>, id1: string, id2: string)
    requires exists token | token in tokens :: NamesScenario(token)
    requires id1 != id2
    ensures License(map[], tokens, id1) != License(map[], tokens, id2)
  {
    LicenseCarriesId(tokens, id1);
    LicenseCarriesId(tokens, id2);
    var m := License(map[], tokens, id1);
    assert m.Keys != {};
    var name :| name in m.Keys;
    assert m[name] == id1;
  }

  lemma IntrudedId(heading: string, body: seq<string>, word: string)
    requires OneLiner(heading) && OneLiners(body) && NoHeadings(body)
    requires !SafeHeading(heading) && LicensesAny(heading, body)
    requires word == "E2E-F-1" || word == "E2E-F-2"
    ensures OneLiner(word + " x") && Prose(word + " x")
    ensures var tokens := AllTokens(ScanLines(Scan(false, []), [heading] + body).deferrals);
      Deferrals(FindingText(heading, body[..0] + [word + " x"] + body[0..]))
      == License(map[], tokens, TrimSpace(heading + "\n" + word))
  {
    IntrudedWord(word);
    IntrudedIsId(heading, word);
    LicensedUnder(heading, body, word);
  }

  lemma IntrudedWord(word: string)
    requires word == "E2E-F-1" || word == "E2E-F-2"
    ensures OneLiner(word + " x") && Prose(word + " x") && ' ' !in word
  {
    TrimTight(word + " x");
  }

  /** A word written below a heading without a space becomes the end of its id. */
  lemma LicensedUnder(heading: string, body: seq<string>, word: string)
    requires OneLiner(heading) && OneLiners(body) && NoHeadings(body) && ' ' !in heading && ' ' !in word
    requires OneLiner(word + " x") && Prose(word + " x") && LicensesAny(heading, body)
    requires ID_PREFIX <= TrimSpace(heading + "\n" + word)
    ensures var tokens := AllTokens(ScanLines(Scan(false, []), [heading] + body).deferrals);
      Deferrals(FindingText(heading, body[..0] + [word + " x"] + body[0..]))
      == License(map[], tokens, TrimSpace(heading + "\n" + word))
  {
    WithProse(heading, body, 0, word + " x");
    ScanWithProse(heading, body, 0, word + " x");
    IntrudedGroup(heading, body, word);
    IdRunsOn(heading, word, body);
  }

  lemma IntrudedGroup(heading: string, body: seq<string>, word: string)
    ensures [heading] + (body[..0] + [word + " x"] + body[0..]) == [heading, word + " x"] + body
  {
  }

  lemma IntrudedIsId(heading: string, word: string)
    requires !SafeHeading(heading) && (word == "E2E-F-1" || word == "E2E-F-2")
    ensures ID_PREFIX <= TrimSpace(heading + "\n" + word)
  {
    IdOfRunOn(heading, word);
    if TrimLeft(heading) != "" {
      assert ID_PREFIX <= TrimLeft(heading);
      assert TrimLeft(heading) <= TrimLeft(heading) + "\n" + word;
    }
  }

  /** A finding survives prose exactly when its heading has a space after the marker, or
      cannot be an id at all, or it licenses nothing anyway. */
  lemma SurvivesProseExactly(heading: string, body: seq<string>)
    requires OneLiner(heading) && OneLiners(body) && NoHeadings(body)
    ensures SurvivesProse(heading, body) <==> SafeHeading(heading) || !LicensesAny(heading, body)
  {
    if SafeHeading(heading) || !LicensesAny(heading, body) {
      SafeFindingSurvives(heading, body);
    } else {
      UnsafeFindingBreaks(heading, body);
    }
  }
}
