/** Writing a findings register in its documented form, and reading it back. */
module RegisterPrinting {
  import opened Text
  import opened Register

  /** A finding as the register documents it; `notes` are its prose lines. */
  datatype Finding = Finding(id: string, title: string, status: string, scenarios: seq<string>, notes: seq<string>)

  /** Only these license anything: not the other statuses, nor ids of another family. */
  predicate Open(f: Finding) { TrimSpace(f.status) == "open" && "E2E-F-" <= f.id }

  function PathItems(scenarios: seq<string>): seq<string> {
    seq(|scenarios|, i requires 0 <= i < |scenarios| => "`" + "scenarios/" + scenarios[i] + "`")
  }

  function StatusLine(status: string): string {
    "- **Status**:" + " " + status
  }

  function DeferralLine(scenarios: seq<string>): string {
    "- **Compose twin deferred**:" + " " + Join(PathItems(scenarios), ", ")
  }

  function DeferralLines(scenarios: seq<string>): seq<string> {
    if scenarios == [] then [] else [DeferralLine(scenarios)]
  }

  function BodyLines(f: Finding): seq<string> {
    [""] + ([StatusLine(f.status)] + (DeferralLines(f.scenarios) + (f.notes + [""])))
  }

  function Title(f: Finding): string {
    f.id + " " + f.title
  }

  function FindingLines(f: Finding): seq<string> {
    ["### " + Title(f)] + BodyLines(f)
  }

  function AllLines(findings: seq<Finding>): seq<string> {
    if findings == [] then [] else FindingLines(findings[0]) + AllLines(findings[1..])
  }

  function PrintRegister(preamble: seq<string>, findings: seq<Finding>): string {
    JoinLines(preamble + AllLines(findings))
  }

  predicate PlainName(name: string) {
    name != "" && forall c | c in name :: c !in "`, .;" && c != '\n'
  }

  predicate WellWritten(f: Finding) {
    && (forall c | c in f.id :: !IsSpace(c))
    && OneLiner(f.title) && OneLiner(f.status)
    && (forall name | name in f.scenarios :: PlainName(name))
    && OneLiners(f.notes) && (forall note | note in f.notes :: Prose(note))
  }

  /* ---- what a register licenses ---- */

  function Grant(out: map<string, string>, names: seq<string>, id: string): map<string, string> {
    if names == [] then out else Grant(out, names[..|names| - 1], id)[names[|names| - 1] := id]
  }

  /** Every scenario an open finding names, under the id of the last such finding. */
  function Licences(findings: seq<Finding>): map<string, string> {
    if findings == [] then map[]
    else
      var last := findings[|findings| - 1];
      var before := Licences(findings[..|findings| - 1]);
      if Open(last) then Grant(before, last.scenarios, last.id) else before
  }

  lemma {:induction false} GrantMeans(out: map<string, string>, names: seq<string>, id: string)
    ensures Grant(out, names, id) == map name | name in out.Keys + (set n | n in names) :: if name in names then id else out[name]
  {
    if names != [] {
      GrantMeans(out, names[..|names| - 1], id);
      assert names == names[..|names| - 1] + [names[|names| - 1]];
    }
  }

  predicate Names(f: Finding, name: string) {
    Open(f) && name in f.scenarios
  }

  /** Which findings name the scenario. */
  function Naming(findings: seq<Finding>, name: string): (r: seq<bool>)
    ensures |r| == |findings|
  {
    seq(|findings|, i requires 0 <= i < |findings| => Names(findings[i], name))
  }

  predicate LastTrue(flags: seq<bool>, i: nat)
    requires i < |flags|
  {
    flags[i] && forall j | i < j < |flags| :: !flags[j]
  }

  predicate LastToName(findings: seq<Finding>, i: nat, name: string)
    requires i < |findings|
  {
    LastTrue(Naming(findings, name), i)
  }

  /** `Licences` is what the register promises: the last open finding that names the scenario. */
  lemma {:induction false} LicencesMean(findings: seq<Finding>, name: string, id: string)
    ensures (name in Licences(findings) && Licences(findings)[name] == id)
       <==> exists i | 0 <= i < |findings| :: LastToName(findings, i, name) && findings[i].id == id
  {
    if findings != [] {
      LicencesMean(findings[..|findings| - 1], name, id);
      LastLicence(findings, name, id);
      LastNamed(findings, name, id);
    }
  }

  lemma LastLicence(findings: seq<Finding>, name: string, id: string)
    requires findings != []
    ensures var before, last := Licences(findings[..|findings| - 1]), findings[|findings| - 1];
      (name in Licences(findings) && Licences(findings)[name] == id)
      <==> if Names(last, name) then last.id == id else name in before && before[name] == id
  {
    var last := findings[|findings| - 1];
    GrantMeans(Licences(findings[..|findings| - 1]), last.scenarios, last.id);
  }

  lemma LastNamed(findings: seq<Finding>, name: string, id: string)
    requires findings != []
    ensures var n := |findings| - 1;
      (exists i | 0 <= i < |findings| :: LastToName(findings, i, name) && findings[i].id == id)
      <==> if Names(findings[n], name) then findings[n].id == id
           else exists i | 0 <= i < n :: LastToName(findings[..n], i, name) && findings[..n][i].id == id
  {
    var n := |findings| - 1;
    forall i | 0 <= i < n
      ensures LastToName(findings, i, name) <==> LastToName(findings[..n], i, name) && !Names(findings[n], name)
    {
      LastOfFront(findings, i, name);
    }
    assert LastToName(findings, n, name) <==> Names(findings[n], name);
  }

  lemma LastOfFront(findings: seq<Finding>, i: nat, name: string)
    requires i < |findings| - 1
    ensures var n := |findings| - 1;
      LastToName(findings, i, name) <==> LastToName(findings[..n], i, name) && !Names(findings[n], name)
  {
    var n := |findings| - 1;
    assert Naming(findings[..n], name) == Naming(findings, name)[..n];
    LastTrueOfFront(Naming(findings, name), i);
  }

  lemma LastTrueOfFront(flags: seq<bool>, i: nat)
    requires i < |flags| - 1
    ensures LastTrue(flags, i) <==> LastTrue(flags[..|flags| - 1], i) && !flags[|flags| - 1]
  {
    var front := flags[..|flags| - 1];
    assert forall j | i <= j < |front| :: front[j] == flags[j];
  }

  /* ---- the lines read back ---- */

  lemma IdKept(f: Finding)
    requires WellWritten(f)
    ensures ' ' in Title(f) && BlockId(Title(f)) == f.id
  {
    if f.id != "" {
      assert f.id[0] in f.id && f.id[|f.id| - 1] in f.id;
      TrimTight(f.id);
    }
    assert Title(f) == f.id + [' '] + f.title;
    assert IsSpace(' ');
    CutAtFirst(f.id, f.title, ' ');
  }

  lemma TitleIsProse(f: Finding)
    requires WellWritten(f) && ID_PREFIX <= f.id
    ensures Prose(Title(f))
  {
    assert Title(f)[0] == f.id[0] == ID_PREFIX[0] == 'E';
    TrimKeepsFront(Title(f));
  }

  lemma TitleOnOneLine(f: Finding)
    requires WellWritten(f)
    ensures OneLiner(Title(f))
  {
    assert IsSpace('\n');
    assert forall c | c in Title(f) :: c in f.id || c == ' ' || c in f.title;
  }

  /** Whatever stands in the status field, blank or not. */
  lemma StatusReads(scan: Scan, status: string)
    ensures var line := StatusLine(status);
      !(HEADING <= line) && !Ends(line) && Note(scan, line) == scan.(isOpen := TrimSpace(status) == "open")
  {
    var line, rest := StatusLine(status), " " + status;
    StatusGlue(status);
    StatusEnds();
    FieldTrimmed(STATUS_FIELD, rest);
    StatusNoted(scan, line, TrimRight(rest));
    TrimRightFirst(rest);
    BlankTrimmed(status);
  }

  lemma StatusGlue(status: string)
    ensures StatusLine(status) == STATUS_FIELD + (" " + status)
  {
  }

  lemma StatusEnds()
    ensures STATUS_FIELD != "" && STATUS_FIELD[0] == '-' && STATUS_FIELD[|STATUS_FIELD| - 1] == ':'
  {
  }

  lemma BlankTrimmed(status: string)
    ensures TrimSpace(" " + status) == TrimSpace(status)
  {
    assert (" " + status)[1..] == status;
  }

  lemma StatusNoted(scan: Scan, line: string, rest: string)
    requires STATUS_FIELD <= TrimSpace(line) && TrimSpace(line)[|STATUS_FIELD|..] == rest
    requires line != "" && line[0] == '-' && TrimSpace(line)[0] == '-'
    ensures !(HEADING <= line) && !Ends(line) && Note(scan, line) == scan.(isOpen := TrimSpace(rest) == "open")
  {
  }

  /** Trimming a line that begins with a field leaves the field and trims the rest. */
  lemma FieldTrimmed(field: string, rest: string)
    requires field != "" && !IsSpace(field[0]) && !IsSpace(field[|field| - 1])
    ensures field <= TrimSpace(field + rest) && TrimSpace(field + rest)[|field|..] == TrimRight(rest)
    ensures TrimSpace(field + rest)[0] == field[0] && (field + rest)[0] == field[0]
  {
    TrimRightAfter(field, rest);
  }

  lemma StatusOnOneLine(status: string)
    requires OneLiner(status)
    ensures OneLiner(StatusLine(status))
  {
    assert '\n' !in STATUS_FIELD;
  }

  lemma {:induction false} PathsEnd(scenarios: seq<string>)
    requires scenarios != []
    ensures Join(PathItems(scenarios), ", ") != ""
    ensures var s := Join(PathItems(scenarios), ", "); s[|s| - 1] == '`'
  {
    if |scenarios| > 1 {
      assert PathItems(scenarios)[1..] == PathItems(scenarios[1..]);
      PathsEnd(scenarios[1..]);
    }
  }

  lemma DeferralReads(scan: Scan, scenarios: seq<string>)
    requires scenarios != []
    ensures var line := DeferralLine(scenarios);
      && !(HEADING <= line) && !Ends(line)
      && Note(scan, line) == scan.(deferrals := scan.deferrals + [" " + Join(PathItems(scenarios), ", ")])
  {
    var line, rest := DeferralLine(scenarios), " " + Join(PathItems(scenarios), ", ");
    PathsEnd(scenarios);
    assert line == DEFERRAL_FIELD + rest;
    assert line[0] == '-' && line[|line| - 1] == '`';
    TrimTight(line);
    assert line[4] == 'C';
    AfterColon(rest);
  }

  lemma AfterColon(rest: string)
    ensures CutAfter(DEFERRAL_FIELD + rest, ':') == rest
  {
    assert DEFERRAL_FIELD == "- **Compose twin deferred**" + [':'];
    assert DEFERRAL_FIELD + rest == "- **Compose twin deferred**" + [':'] + rest;
    CutAtFirst("- **Compose twin deferred**", rest, ':');
  }

  lemma {:induction false} TokenMeasured(token: string, rest: string)
    requires forall c | c in token :: !IsSeparator(c)
    requires rest == "" || IsSeparator(rest[0])
    ensures TokenLength(token + rest) == |token|
  {
    if token == "" {
      assert token + rest == rest;
    } else {
      assert token[0] in token;
      assert (token + rest)[1..] == token[1..] + rest;
      TokenMeasured(token[1..], rest);
    }
  }

  /* Backquotes, commas, blanks, full stops and semicolons separate the names of a field. */

  predicate Gap(s: string) { forall c | c in s :: c in "`, .;" }

  predicate Unbroken(token: string) { token != "" && forall c | c in token :: c !in "`, .;" }

  /** The tokens, each followed by its gap. */
  function Spread(tokens: seq<string>, gaps: seq<string>): string
    requires |gaps| == |tokens|
  {
    if tokens == [] then "" else tokens[0] + (gaps[0] + Spread(tokens[1..], gaps[1..]))
  }

  lemma {:induction false} GapSkipped(gap: string, rest: string)
    requires Gap(gap)
    ensures Fields(gap + rest) == Fields(rest)
  {
    if gap == "" {
      assert gap + rest == rest;
    } else {
      assert gap[0] in gap;
      assert gap + rest == [gap[0]] + (gap[1..] + rest);
      FieldsSkip(gap[0], gap[1..] + rest);
      GapSkipped(gap[1..], rest);
    }
  }

  /** The tokenizer finds the tokens of any text, whatever separates them. */
  lemma {:induction false} TokensRead(lead: string, tokens: seq<string>, gaps: seq<string>)
    requires |gaps| == |tokens| && Gap(lead)
    requires forall i | 0 <= i < |tokens| :: Unbroken(tokens[i]) && Gap(gaps[i]) && (i < |tokens| - 1 ==> gaps[i] != "")
    ensures Fields(lead + Spread(tokens, gaps)) == tokens
    decreases |tokens|
  {
    GapSkipped(lead, Spread(tokens, gaps));
    if tokens != [] {
      var rest := Spread(tokens[1..], gaps[1..]);
      TokensRead(gaps[0], tokens[1..], gaps[1..]);
      assert gaps[0] + rest == "" || IsSeparator((gaps[0] + rest)[0]) by {
        assert gaps[0] != "" ==> gaps[0][0] in gaps[0];
      }
      FieldsToken(tokens[0], gaps[0] + rest);
      assert [tokens[0]] + tokens[1..] == tokens;
    }
  }

  lemma FieldsSkip(c: char, rest: string)
    requires IsSeparator(c)
    ensures Fields([c] + rest) == Fields(rest)
  {
    assert ([c] + rest)[1..] == rest;
  }

  lemma FieldsToken(token: string, rest: string)
    requires token != "" && forall c | c in token :: !IsSeparator(c)
    requires rest == "" || IsSeparator(rest[0])
    ensures Fields(token + rest) == [token] + Fields(rest)
  {
    TokenMeasured(token, rest);
    assert token[0] in token;
    assert (token + rest)[..|token|] == token && (token + rest)[|token|..] == rest;
  }

  function PathTokens(scenarios: seq<string>): seq<string> {
    seq(|scenarios|, i requires 0 <= i < |scenarios| => PATH_PREFIX + scenarios[i])
  }

  lemma PathToken(name: string)
    requires PlainName(name)
    ensures PATH_PREFIX + name != "" && forall c | c in PATH_PREFIX + name :: !IsSeparator(c)
  {
    assert forall c | c in PATH_PREFIX + name :: c in PATH_PREFIX || c in name;
  }

  lemma LastPathRead(token: string)
    requires token != "" && forall c | c in token :: !IsSeparator(c)
    ensures Fields("`" + token + "`") == [token]
  {
    assert "`" + token + "`" == ['`'] + (token + "`");
    FieldsSkip('`', token + "`");
    FieldsToken(token, "`");
    assert ['`'] + "" == "`";
    FieldsSkip('`', "");
  }

  lemma NextPathRead(token: string, rest: string)
    requires token != "" && forall c | c in token :: !IsSeparator(c)
    ensures Fields("`" + token + "`" + ", " + rest) == [token] + Fields(rest)
  {
    PathGlue(token, rest);
    FieldsSkip('`', token + ("`, " + rest));
    FieldsToken(token, "`, " + rest);
    SeparatorGlue(rest);
    FieldsSkip('`', ", " + rest);
    FieldsSkip(',', " " + rest);
    FieldsSkip(' ', rest);
  }

  lemma PathGlue(token: string, rest: string)
    ensures "`" + token + "`" + ", " + rest == ['`'] + (token + ("`, " + rest))
  {
  }

  lemma SeparatorGlue(rest: string)
    ensures "`, " + rest == ['`'] + (", " + rest) && ", " + rest == [','] + (" " + rest) && " " + rest == [' '] + rest
  {
  }

  /** The printed list of paths splits into exactly those paths. */
  lemma {:induction false} PathsRead(scenarios: seq<string>)
    requires scenarios != [] && forall name | name in scenarios :: PlainName(name)
    ensures Fields(Join(PathItems(scenarios), ", ")) == PathTokens(scenarios)
  {
    var token := PATH_PREFIX + scenarios[0];
    assert scenarios[0] in scenarios;
    PathToken(scenarios[0]);
    ItemIsQuotedToken(scenarios[0]);
    if |scenarios| == 1 {
      LastPathRead(token);
      assert PathTokens(scenarios) == [token];
    } else {
      assert forall name | name in scenarios[1..] :: name in scenarios;
      PathsRead(scenarios[1..]);
      assert PathItems(scenarios)[1..] == PathItems(scenarios[1..]);
      NextPathRead(token, Join(PathItems(scenarios[1..]), ", "));
      assert PathTokens(scenarios) == [token] + PathTokens(scenarios[1..]);
    }
  }

  lemma ItemIsQuotedToken(name: string)
    ensures "`" + PATH_PREFIX + name + "`" == "`" + (PATH_PREFIX + name) + "`"
  {
  }

  lemma {:induction false} PathsLicense(out: map<string, string>, scenarios: seq<string>, id: string)
    requires forall name | name in scenarios :: PlainName(name)
    ensures License(out, PathTokens(scenarios), id) == Grant(out, scenarios, id)
  {
    if scenarios != [] {
      var n := |scenarios| - 1;
      var front, last := scenarios[..n], scenarios[n];
      assert last in scenarios;
      assert forall name | name in front :: name in scenarios;
      PathsLicense(out, front, id);
      assert PathTokens(scenarios)[..n] == PathTokens(front);
      assert PathTokens(scenarios)[n] == PATH_PREFIX + last;
      assert (PATH_PREFIX + last)[|PATH_PREFIX|..] == last;
    }
  }

  lemma {:induction false} ScanPastProse(scan: Scan, prose: seq<string>, rest: seq<string>)
    requires forall line | line in prose :: Prose(line)
    ensures ScanLines(scan, prose + rest) == ScanLines(scan, rest)
  {
    if prose == [] {
      assert prose + rest == rest;
    } else {
      assert prose[0] in prose;
      assert (prose + rest)[0] == prose[0] && (prose + rest)[1..] == prose[1..] + rest;
      ScanPastProse(scan, prose[1..], rest);
    }
  }

  lemma ScanStep(scan: Scan, line: string, rest: seq<string>)
    requires !Ends(line)
    ensures ScanLines(scan, [line] + rest) == ScanLines(Note(scan, line), rest)
  {
    assert ([line] + rest)[1..] == rest;
  }

  lemma EmptyLineIsProse()
    ensures Prose("") && OneLiner("")
  {
  }

  /** A status line, perhaps a deferral line, and prose around them. */
  lemma FieldsScan(title: string, status: string, scenarios: seq<string>, tail: seq<string>)
    requires Prose(title) && forall line | line in tail :: Prose(line)
    ensures ScanLines(Scan(false, []), [title, ""] + ([StatusLine(status)] + (DeferralLines(scenarios) + tail)))
         == Scan(TrimSpace(status) == "open", if scenarios == [] then [] else [" " + Join(PathItems(scenarios), ", ")])
  {
    var rest := DeferralLines(scenarios) + tail;
    EmptyLineIsProse();
    ScanPastProse(Scan(false, []), [title, ""], [StatusLine(status)] + rest);
    StatusReads(Scan(false, []), status);
    ScanStep(Scan(false, []), StatusLine(status), rest);
    TailScans(Scan(TrimSpace(status) == "open", []), scenarios, tail);
  }

  lemma TailScans(scan: Scan, scenarios: seq<string>, tail: seq<string>)
    requires forall line | line in tail :: Prose(line)
    ensures ScanLines(scan, DeferralLines(scenarios) + tail)
         == if scenarios == [] then scan else scan.(deferrals := scan.deferrals + [" " + Join(PathItems(scenarios), ", ")])
  {
    assert tail + [] == tail;
    if scenarios == [] {
      assert DeferralLines(scenarios) + tail == tail;
      ScanPastProse(scan, tail, []);
    } else {
      DeferralReads(scan, scenarios);
      ScanStep(scan, DeferralLine(scenarios), tail);
      ScanPastProse(Note(scan, DeferralLine(scenarios)), tail, []);
    }
  }

  /** Scanning a printed finding gives its status and its deferral field. */
  lemma FindingScans(f: Finding)
    requires WellWritten(f) && ID_PREFIX <= f.id
    ensures ScanLines(Scan(false, []), [Title(f)] + BodyLines(f))
         == Scan(TrimSpace(f.status) == "open", if f.scenarios == [] then [] else [" " + Join(PathItems(f.scenarios), ", ")])
  {
    TitleIsProse(f);
    EmptyLineIsProse();
    FieldsScan(Title(f), f.status, f.scenarios, f.notes + [""]);
    TitleAndBlank(Title(f), [StatusLine(f.status)] + (DeferralLines(f.scenarios) + (f.notes + [""])));
  }

  lemma TitleAndBlank(title: string, rest: seq<string>)
    ensures [title] + ([""] + rest) == [title, ""] + rest
  {
  }

  lemma FindingReads(out: map<string, string>, f: Finding)
    requires WellWritten(f)
    ensures ReadGroup(out, [Title(f)] + BodyLines(f)) == if Open(f) then Grant(out, f.scenarios, f.id) else out
  {
    IdKept(f);
    IdFromTitle([Title(f)] + BodyLines(f));
    if ID_PREFIX <= f.id {
      GuardedFindingReads(out, f);
    }
  }

  lemma GuardedFindingReads(out: map<string, string>, f: Finding)
    requires WellWritten(f) && ID_PREFIX <= f.id && BlockId(JoinLines([Title(f)] + BodyLines(f))) == f.id
    ensures ReadGroup(out, [Title(f)] + BodyLines(f)) == if Open(f) then Grant(out, f.scenarios, f.id) else out
  {
    FindingScans(f);
    if f.scenarios == [] {
      assert AllTokens([]) == [];
    } else {
      var field := " " + Join(PathItems(f.scenarios), ", ");
      FieldsSkip(' ', Join(PathItems(f.scenarios), ", "));
      PathsRead(f.scenarios);
      assert [field][..0] == [] && AllTokens([field]) == [] + Fields(field);
      assert [] + PathTokens(f.scenarios) == PathTokens(f.scenarios);
      PathsLicense(out, f.scenarios, f.id);
    }
  }

  /* ---- the register reads back ---- */

  lemma {:induction false} GroupsOver(body: seq<string>, rest: seq<string>)
    requires NoHeadings(body)
    ensures Groups(body + rest) == [body + Groups(rest)[0]] + Groups(rest)[1..]
  {
    if body == [] {
      assert body + rest == rest && [] + Groups(rest)[0] == Groups(rest)[0];
    } else {
      assert body[0] in body;
      assert forall line | line in body[1..] :: line in body;
      assert (body + rest)[1..] == body[1..] + rest;
      GroupsOver(body[1..], rest);
      assert [body[0]] + (body[1..] + Groups(rest)[0]) == body + Groups(rest)[0];
    }
  }

  function FindingGroups(findings: seq<Finding>): seq<seq<string>> {
    seq(|findings|, i requires 0 <= i < |findings| => [Title(findings[i])] + BodyLines(findings[i]))
  }

  lemma {:induction false} PathsOnOneLine(scenarios: seq<string>)
    requires forall name | name in scenarios :: PlainName(name)
    ensures OneLiner(Join(PathItems(scenarios), ", "))
  {
    if scenarios != [] {
      assert scenarios[0] in scenarios;
      assert forall name | name in scenarios[1..] :: name in scenarios;
      PathsOnOneLine(scenarios[1..]);
      assert PathItems(scenarios)[1..] == PathItems(scenarios[1..]);
    }
  }

  lemma DeferralOnOneLine(scenarios: seq<string>)
    requires forall name | name in scenarios :: PlainName(name)
    ensures OneLiner(DeferralLine(scenarios))
  {
    PathsOnOneLine(scenarios);
    assert '\n' !in DEFERRAL_FIELD;
  }

  lemma BodyIsPlain(f: Finding)
    requires WellWritten(f)
    ensures NoHeadings(BodyLines(f)) && OneLiners(BodyLines(f))
  {
    EmptyLineIsProse();
    StatusReads(Scan(false, []), f.status);
    StatusOnOneLine(f.status);
    DeferralOnOneLine(f.scenarios);
    if f.scenarios != [] {
      DeferralReads(Scan(false, []), f.scenarios);
    }
    forall line | line in BodyLines(f) ensures !(HEADING <= line) && OneLiner(line) {
      assert line in ["", StatusLine(f.status)] || line in DeferralLines(f.scenarios) || line in f.notes;
      if line in f.notes {
        HeadingIsNotProse(line);
      }
    }
  }

  lemma {:induction false} FindingsGroup(findings: seq<Finding>)
    requires forall f | f in findings :: WellWritten(f)
    ensures Groups(AllLines(findings)) == [[]] + FindingGroups(findings)
    ensures OneLiners(AllLines(findings))
  {
    if findings != [] {
      var f, rest := findings[0], findings[1..];
      assert f in findings;
      assert forall x | x in rest :: x in findings;
      FindingsGroup(rest);
      FindingGroup(f, AllLines(rest), FindingGroups(rest));
      assert FindingGroups(findings) == [[Title(f)] + BodyLines(f)] + FindingGroups(rest);
    }
  }

  lemma FindingGroup(f: Finding, rest: seq<string>, groups: seq<seq<string>>)
    requires WellWritten(f) && Groups(rest) == [[]] + groups && OneLiners(rest)
    ensures Groups(FindingLines(f) + rest) == [[]] + ([[Title(f)] + BodyLines(f)] + groups)
    ensures OneLiners(FindingLines(f) + rest)
  {
    var title, body := Title(f), BodyLines(f);
    BodyIsPlain(f);
    TitleOnOneLine(f);
    HeadingOverBody(title, body, rest, groups);
  }

  lemma HeadingOverBody(title: string, body: seq<string>, rest: seq<string>, groups: seq<seq<string>>)
    requires NoHeadings(body) && OneLiners(body) && OneLiner(title)
    requires Groups(rest) == [[]] + groups && OneLiners(rest)
    ensures Groups([HEADING + title] + body + rest) == [[]] + ([[title] + body] + groups)
    ensures OneLiners([HEADING + title] + body + rest)
  {
    GroupsOver(body, rest);
    HeadingGroup(title, body, rest);
    assert OneLiner(HEADING + title);
    assert body + [] == body;
  }

  lemma HeadingGroup(title: string, body: seq<string>, rest: seq<string>)
    ensures Groups([HEADING + title] + body + rest) == [[]] + Push(title, Groups(body + rest))
  {
    var lines := [HEADING + title] + body + rest;
    assert lines[1..] == body + rest;
    assert (HEADING + title)[|HEADING|..] == title;
  }

  lemma {:induction false} FindingsRead(findings: seq<Finding>)
    requires forall f | f in findings :: WellWritten(f)
    ensures ReadGroups(map[], FindingGroups(findings)) == Licences(findings)
  {
    if findings != [] {
      var n := |findings| - 1;
      var front, last := findings[..n], findings[n];
      assert last in findings;
      assert forall f | f in front :: f in findings;
      FindingsRead(front);
      FindingReads(Licences(front), last);
      LastGroup(findings);
      LastGroupReads(FindingGroups(front), [Title(last)] + BodyLines(last));
    }
  }

  lemma LastGroup(findings: seq<Finding>)
    requires findings != []
    ensures var last := findings[|findings| - 1];
      FindingGroups(findings) == FindingGroups(findings[..|findings| - 1]) + [[Title(last)] + BodyLines(last)]
  {
  }

  lemma LastGroupReads(groups: seq<seq<string>>, last: seq<string>)
    ensures ReadGroups(map[], groups + [last]) == ReadGroup(ReadGroups(map[], groups), last)
  {
    assert (groups + [last])[..|groups|] == groups;
  }

  /** The round trip: a printed register, with any preamble and any prose inside its
      findings, licenses exactly what its open findings name. */
  lemma RegisterReadsBack(preamble: seq<string>, findings: seq<Finding>)
    requires OneLiners(preamble) && NoHeadings(preamble)
    requires forall f | f in findings :: WellWritten(f)
    ensures Deferrals(PrintRegister(preamble, findings)) == Licences(findings)
  {
    FindingsGroup(findings);
    FindingsRead(findings);
    var lines := preamble + AllLines(findings);
    GroupsOver(preamble, AllLines(findings));
    if lines == [] {
      assert findings == [];
      LineByLine([""]);
    } else {
      LineByLine(lines);
      assert Groups(lines)[1..] == FindingGroups(findings);
    }
  }

  /* ---- a finding that does not survive prose ---- */

  lemma OpenTrimmed()
    ensures TrimSpace("open") == "open"
  {
    TrimTight("open");
  }

  lemma LicensedByFields(heading: string, scenarios: seq<string>)
    requires Prose(heading) && scenarios != [] && forall name | name in scenarios :: PlainName(name)
    ensures LicensesAny(heading, ["", StatusLine("open"), DeferralLine(scenarios)])
  {
    var body, field := ["", StatusLine("open"), DeferralLine(scenarios)], " " + Join(PathItems(scenarios), ", ");
    OpenTrimmed();
    FieldsScan(heading, "open", scenarios, []);
    assert [heading, ""] + ([StatusLine("open")] + (DeferralLines(scenarios) + [])) == [heading] + body;
    FieldsSkip(' ', Join(PathItems(scenarios), ", "));
    PathsRead(scenarios);
    assert [field][..0] == [] && AllTokens([field]) == [] + Fields(field);
    assert scenarios[0] in scenarios;
    var token := PathTokens(scenarios)[0];
    assert token in AllTokens([field]) && NamesScenario(token);
  }

  /** An open finding whose heading is its id alone: a line written below it can take its
      licence to another id. */
  lemma BareHeadingBreaks()
    ensures !SurvivesProse("E2E-F-1", ["", StatusLine("open"), DeferralLine(["relay"])])
  {
    BareHeading();
    BareHeadingBreaksWith("E2E-F-1", ["relay"]);
  }

  lemma BareHeadingBreaksWith(heading: string, scenarios: seq<string>)
    requires Prose(heading) && OneLiner(heading) && !SafeHeading(heading)
    requires scenarios != [] && forall name | name in scenarios :: PlainName(name)
    ensures !SurvivesProse(heading, ["", StatusLine("open"), DeferralLine(scenarios)])
  {
    LicensedByFields(heading, scenarios);
    FieldsArePlain(scenarios);
    SurvivesProseExactly(heading, ["", StatusLine("open"), DeferralLine(scenarios)]);
  }

  lemma FieldsArePlain(scenarios: seq<string>)
    requires scenarios != [] && forall name | name in scenarios :: PlainName(name)
    ensures var body := ["", StatusLine("open"), DeferralLine(scenarios)]; OneLiners(body) && NoHeadings(body)
  {
    StatusReads(Scan(false, []), "open");
    StatusOnOneLine("open");
    DeferralReads(Scan(false, []), scenarios);
    DeferralOnOneLine(scenarios);
    EmptyLineIsProse();
  }

  lemma BareHeading()
    ensures Prose("E2E-F-1") && OneLiner("E2E-F-1") && !SafeHeading("E2E-F-1") && PlainName("relay")
  {
    TrimTight("E2E-F-1");
  }
}
