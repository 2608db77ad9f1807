/** The string operations the harness takes from Go's strings and strconv
    packages, and the facts that make them invertible. */
module Text {
  import opened Sorting

  /* ---- decimal numerals ---- */

  function Digit(d: nat): char
    requires d < 10
  {
    ('0' as int + d) as char
  }

  predicate IsDigit(c: char) { '0' <= c <= '9' }

  function Decimal(n: nat): (s: string)
    ensures s != [] && forall c :: c in s ==> IsDigit(c)
  {
    if n < 10 then [Digit(n)] else Decimal(n / 10) + [Digit(n % 10)]
  }

  /** strconv.Itoa and the %d verb. */
  function Itoa(n: int): string {
    if n < 0 then "-" + Decimal(-n) else Decimal(n)
  }

  /** The %02d verb on a natural number. */
  function Pad2(n: nat): string {
    if n < 10 then "0" + Decimal(n) else Decimal(n)
  }

  function DecimalValue(s: string): nat
    requires forall c :: c in s ==> IsDigit(c)
  {
    if s == [] then 0
    else
      assert forall c :: c in s[..|s| - 1] ==> c in s;
      assert s[|s| - 1] in s && IsDigit(s[|s| - 1]);
      DecimalValue(s[..|s| - 1]) * 10 + (s[|s| - 1] as int - '0' as int)
  }

  lemma {:induction false} DecimalReadsBack(n: nat)
    ensures DecimalValue(Decimal(n)) == n
  {
    if n >= 10 {
      DecimalReadsBack(n / 10);
      var s := Decimal(n);
      assert s[..|s| - 1] == Decimal(n / 10);
    } else {
      assert Decimal(n)[..0] == [];
    }
  }

  lemma DecimalInjective(m: nat, n: nat)
    requires Decimal(m) == Decimal(n)
    ensures m == n
  {
    DecimalReadsBack(m);
    DecimalReadsBack(n);
  }

  lemma ItoaSign(n: int)
    ensures n < 0 <==> Itoa(n)[0] == '-'
  {
    if n >= 0 {
      assert Decimal(n)[0] in Decimal(n);
    }
  }

  lemma ItoaInjective(m: int, n: int)
    requires Itoa(m) == Itoa(n)
    ensures m == n
  {
    ItoaSign(m);
    ItoaSign(n);
    if m < 0 && n < 0 {
      assert Itoa(m)[1..] == Decimal(-m) && Itoa(n)[1..] == Decimal(-n);
      DecimalInjective(-m, -n);
    } else if m >= 0 && n >= 0 {
      DecimalInjective(m, n);
    }
  }

  lemma {:induction false} NoLeadingZero(n: nat)
    requires n > 0
    ensures Decimal(n)[0] != '0'
  {
    if n >= 10 {
      NoLeadingZero(n / 10);
    }
  }

  lemma PadShows(n: nat)
    ensures n < 10 <==> Pad2(n)[0] == '0'
  {
    if n >= 10 {
      NoLeadingZero(n);
    }
  }

  /** Zero padding never makes two hop numbers collide. */
  lemma Pad2Injective(m: nat, n: nat)
    requires Pad2(m) == Pad2(n)
    ensures m == n
  {
    PadShows(m);
    PadShows(n);
    if m < 10 && n < 10 {
      assert Pad2(m)[1..] == Decimal(m) && Pad2(n)[1..] == Decimal(n);
      DecimalInjective(m, n);
    } else if m >= 10 && n >= 10 {
      DecimalInjective(m, n);
    }
  }

  /* ---- byte order ---- */

  /** The order of sort.Strings. */
  predicate StrLeq(a: string, b: string) {
    a == [] || (b != [] && (a[0] < b[0] || (a[0] == b[0] && StrLeq(a[1..], b[1..]))))
  }

  predicate IntLeq(a: int, b: int) { a <= b }

  lemma {:induction false} StrLeqTotal(a: string, b: string)
    ensures StrLeq(a, b) || StrLeq(b, a)
    ensures StrLeq(a, b) && StrLeq(b, a) ==> a == b
  {
    if a != [] && b != [] {
      StrLeqTotal(a[1..], b[1..]);
      assert a == [a[0]] + a[1..] && b == [b[0]] + b[1..];
    }
  }

  /** The order is that of the first place where the strings differ, and a string comes
      before its extensions. */
  lemma {:induction false} StrLeqExactly(a: string, b: string)
    ensures StrLeq(a, b) <==> a <= b || exists k :: LessAt(a, b, k)
  {
    if a != [] && b != [] {
      if a[0] == b[0] {
        StrLeqExactly(a[1..], b[1..]);
        LessBehind(a, b);
      } else {
        assert LessAt(a, b, 0) <==> a[0] < b[0];
        assert forall k: nat | LessAt(a, b, k) :: k > 0 ==> a[..k][0] == b[..k][0];
      }
    }
  }

  /** The strings agree up to position k and the first is smaller there. */
  predicate LessAt(a: string, b: string, k: nat) {
    k < |a| && k < |b| && a[..k] == b[..k] && a[k] < b[k]
  }

  lemma LessBehind(a: string, b: string)
    requires a != [] && b != [] && a[0] == b[0]
    ensures (exists k :: LessAt(a, b, k)) <==> exists k :: LessAt(a[1..], b[1..], k)
    ensures a <= b <==> a[1..] <= b[1..]
  {
    assert a == [a[0]] + a[1..] && b == [b[0]] + b[1..];
    if k: nat :| LessAt(a[1..], b[1..], k) {
      assert a[..k + 1] == [a[0]] + a[1..][..k] && b[..k + 1] == [b[0]] + b[1..][..k];
      assert LessAt(a, b, k + 1);
    }
    if k: nat :| LessAt(a, b, k) {
      assert a[1..][..k - 1] == a[..k][1..] && b[1..][..k - 1] == b[..k][1..];
      assert LessAt(a[1..], b[1..], k - 1);
    }
  }

  lemma {:induction false} StrLeqTransitive(a: string, b: string, c: string)
    requires StrLeq(a, b) && StrLeq(b, c)
    ensures StrLeq(a, c)
  {
    if a != [] && b != [] && c != [] && a[0] == b[0] == c[0] {
      StrLeqTransitive(a[1..], b[1..], c[1..]);
    }
  }

  lemma StringsOrdered()
    ensures TotalOrder(StrLeq)
  {
    forall x, y ensures (StrLeq(x, y) || StrLeq(y, x)) && (StrLeq(x, y) && StrLeq(y, x) ==> x == y) {
      StrLeqTotal(x, y);
    }
    forall x, y, z | StrLeq(x, y) && StrLeq(y, z) ensures StrLeq(x, z) {
      StrLeqTransitive(x, y, z);
    }
  }

  lemma IntsOrdered()
    ensures TotalOrder(IntLeq)
  {
  }

  /* ---- joining and splitting ---- */

  /** strings.Join */
  function Join(parts: seq<string>, sep: string): string {
    if parts == [] then ""
    else if |parts| == 1 then parts[0]
    else parts[0] + sep + Join(parts[1..], sep)
  }

  function JoinLines(lines: seq<string>): string {
    Join(lines, "\n")
  }

  /** strings.Split for a non-empty separator: cut at every leftmost occurrence. */
  function Split(s: string, sep: string): (parts: seq<string>)
    requires sep != ""
    ensures parts != []
    decreases |s|
  {
    if s == "" then [""]
    else if sep <= s then [""] + Split(s[|sep|..], sep)
    else Extend([s[0]], Split(s[1..], sep))
  }

  /** `head` written in front of the first of `parts`. */
  function Extend(head: string, parts: seq<string>): (r: seq<string>)
    requires parts != []
    ensures |r| == |parts|
  {
    [head + parts[0]] + parts[1..]
  }

  lemma ExtendTwice(a: string, b: string, parts: seq<string>)
    requires parts != []
    ensures Extend(a, Extend(b, parts)) == Extend(a + b, parts)
  {
    assert a + (b + parts[0]) == a + b + parts[0];
  }

  lemma JoinExtend(head: string, parts: seq<string>, sep: string)
    requires parts != []
    ensures Join(Extend(head, parts), sep) == head + Join(parts, sep)
  {
    assert Extend(head, parts)[1..] == parts[1..];
    if |parts| > 1 {
      var t := Join(parts[1..], sep);
      assert (head + parts[0]) + sep + t == head + (parts[0] + sep + t);
    }
  }

  lemma JoinCons(first: string, parts: seq<string>, sep: string)
    requires parts != []
    ensures Join([first] + parts, sep) == first + sep + Join(parts, sep)
  {
    assert ([first] + parts)[1..] == parts;
  }

  /** Splitting loses nothing. */
  lemma {:induction false} JoinSplit(s: string, sep: string)
    requires sep != ""
    ensures Join(Split(s, sep), sep) == s
    decreases |s|
  {
    if s == "" {
    } else if sep <= s {
      var t := s[|sep|..];
      JoinSplit(t, sep);
      JoinCons("", Split(t, sep), sep);
      assert s == "" + sep + t;
    } else {
      var t := s[1..];
      JoinSplit(t, sep);
      JoinExtend([s[0]], Split(t, sep), sep);
      assert s == [s[0]] + t;
    }
  }

  /** A separator that cannot overlap itself because its first character does not recur. */
  predicate Borderless(sep: string) {
    sep != "" && sep[0] !in sep[1..]
  }

  /** Text without the separator's first character cannot start a match. */
  lemma {:induction false} SplitPlainPrefix(x: string, t: string, sep: string)
    requires sep != "" && sep[0] !in x
    ensures Split(x + t, sep) == Extend(x, Split(t, sep))
  {
    if x == "" {
      assert x + t == t;
      assert "" + Split(t, sep)[0] == Split(t, sep)[0];
    } else {
      assert (x + t)[1..] == x[1..] + t;
      assert x[0] in x;
      assert sep[0] != (x + t)[0];
      SplitPlainPrefix(x[1..], t, sep);
      ExtendTwice([x[0]], x[1..], Split(t, sep));
      assert [x[0]] + x[1..] == x;
    }
  }

  /** Splitting distributes over an explicit separator. */
  lemma {:induction false} SplitConcat(a: string, b: string, sep: string)
    requires Borderless(sep)
    ensures Split(a + sep + b, sep) == Split(a, sep) + Split(b, sep)
    decreases |a|
  {
    if a == "" {
      SplitMatch(b, sep);
      assert "" + sep + b == sep + b;
    } else if sep <= a {
      SplitConcat(a[|sep|..], b, sep);
      SplitConcatMatch(a[|sep|..], b, sep);
      assert a == sep + a[|sep|..];
    } else {
      SplitConcat(a[1..], b, sep);
      assert a == [a[0]] + a[1..];
      SplitConcatStep(a[0], a[1..], b, sep);
    }
  }

  lemma SplitConcatMatch(a: string, b: string, sep: string)
    requires sep != "" && Split(a + sep + b, sep) == Split(a, sep) + Split(b, sep)
    ensures Split(sep + a + sep + b, sep) == Split(sep + a, sep) + Split(b, sep)
  {
    SplitMatch(a, sep);
    SplitMatch(a + sep + b, sep);
    Regroup(sep, a, sep, b);
    ConsConcat("", Split(a, sep), Split(b, sep));
  }

  lemma ConsConcat(head: string, a: seq<string>, b: seq<string>)
    ensures [head] + (a + b) == [head] + a + b
  {
  }

  lemma SplitConcatStep(c: char, a: string, b: string, sep: string)
    requires Borderless(sep) && !(sep <= [c] + a)
    requires Split(a + sep + b, sep) == Split(a, sep) + Split(b, sep)
    ensures Split([c] + a + sep + b, sep) == Split([c] + a, sep) + Split(b, sep)
  {
    NoStraddle([c] + a, b, sep);
    Regroup([c], a, sep, b);
    SplitStep(c, a, sep);
    SplitStep(c, a + sep + b, sep);
    ExtendConcat([c], Split(a, sep), Split(b, sep));
  }

  lemma Regroup(x: string, a: string, sep: string, b: string)
    ensures x + a + sep + b == x + (a + sep + b)
  {
  }

  lemma ExtendConcat(head: string, a: seq<string>, b: seq<string>)
    requires a != []
    ensures Extend(head, a + b) == Extend(head, a) + b
  {
  }

  lemma SplitMatch(rest: string, sep: string)
    requires sep != ""
    ensures Split(sep + rest, sep) == [""] + Split(rest, sep)
  {
    assert (sep + rest)[|sep|..] == rest;
  }

  lemma SplitStep(c: char, rest: string, sep: string)
    requires sep != "" && !(sep <= [c] + rest)
    ensures Split([c] + rest, sep) == Extend([c], Split(rest, sep))
  {
    assert ([c] + rest)[1..] == rest;
  }

  lemma NoStraddle(a: string, b: string, sep: string)
    requires Borderless(sep) && a != "" && !(sep <= a)
    ensures !(sep <= a + sep + b)
  {
    var t := a + sep + b;
    if |a| < |sep| {
      assert sep[1..][|a| - 1] in sep[1..];
      assert t[|a|] == sep[0] != sep[|a|];
    } else {
      assert t[..|sep|] == a[..|sep|];
    }
  }

  lemma {:induction false} SplitJoin(parts: seq<string>, c: char)
    requires parts != [] && forall p | p in parts :: c !in p
    ensures Split(Join(parts, [c]), [c]) == parts
  {
    SplitPlain(parts[0], c);
    if |parts| > 1 {
      var rest := parts[1..];
      assert forall p | p in rest :: p in parts;
      SplitJoin(rest, c);
      SplitConcat(parts[0], Join(rest, [c]), [c]);
      assert parts == [parts[0]] + rest;
    }
  }

  lemma SplitPlain(s: string, c: char)
    requires c !in s
    ensures Split(s, [c]) == [s]
  {
    SplitPlainPrefix(s, "", [c]);
    assert s + "" == s;
  }

  lemma {:induction false} SplitPieces(s: string, c: char)
    ensures forall p | p in Split(s, [c]) :: c !in p
  {
    if s != "" {
      SplitPieces(s[1..], c);
    }
  }

  /** Joined lists are equal only if the lists are, when no part is empty or holds the separator. */
  lemma JoinInjective(a: seq<string>, b: seq<string>, c: char)
    requires forall p | p in a :: p != "" && c !in p
    requires forall p | p in b :: p != "" && c !in p
    requires Join(a, [c]) == Join(b, [c])
    ensures a == b
  {
    if a != [] && b != [] {
      SplitJoin(a, c);
      SplitJoin(b, c);
    } else {
      JoinNonEmpty(a, c);
      JoinNonEmpty(b, c);
    }
  }

  lemma JoinNonEmpty(a: seq<string>, c: char)
    requires forall p | p in a :: p != ""
    ensures Join(a, [c]) == "" <==> a == []
  {
    assert a != [] ==> a[0] in a;
  }

  /* ---- trimming and cutting ---- */

  /** unicode.IsSpace */
  predicate IsSpace(c: char) {
    || c in "\t\n\r \U{0B}\U{0C}\U{85}\U{A0}\U{1680}\U{2028}\U{2029}\U{202F}\U{205F}\U{3000}"
    || '\U{2000}' <= c <= '\U{200A}'
  }

  function TrimLeft(s: string): string {
    if s != "" && IsSpace(s[0]) then TrimLeft(s[1..]) else s
  }

  function TrimRight(s: string): string {
    if s != "" && IsSpace(s[|s| - 1]) then TrimRight(s[..|s| - 1]) else s
  }

  /** strings.TrimSpace */
  function TrimSpace(s: string): string {
    TrimRight(TrimLeft(s))
  }

  /** Trimming on the right stops at a character that is no blank. */
  lemma {:induction false} TrimRightAfter(a: string, b: string)
    requires a != "" && !IsSpace(a[|a| - 1])
    ensures TrimRight(a + b) == a + TrimRight(b)
    decreases |b|
  {
    if b == "" {
      assert a + b == a;
    } else {
      assert (a + b)[..|a + b| - 1] == a + b[..|b| - 1];
      if IsSpace(b[|b| - 1]) {
        TrimRightAfter(a, b[..|b| - 1]);
      }
    }
  }

  lemma {:induction false} TrimTrailing(s: string, c: char)
    requires IsSpace(c)
    ensures TrimSpace(s + [c]) == TrimSpace(s)
  {
    if s == "" {
      assert s + [c] == [c] && [c][1..] == "";
    } else if IsSpace(s[0]) {
      assert (s + [c])[1..] == s[1..] + [c];
      TrimTrailing(s[1..], c);
    } else {
      assert (s + [c])[..|s|] == s;
    }
  }

  /** The right end may be trimmed first. */
  lemma {:induction false} TrimRightFirst(s: string)
    ensures TrimSpace(TrimRight(s)) == TrimSpace(s)
  {
    if s != "" && IsSpace(s[|s| - 1]) {
      var front := s[..|s| - 1];
      TrimRightFirst(front);
      assert s == front + [s[|s| - 1]];
      TrimTrailing(front, s[|s| - 1]);
    }
  }

  /** What strings.Cut returns before the first `c`; all of `s` when there is none. */
  function CutBefore(s: string, c: char): string {
    if s == "" || s[0] == c then "" else [s[0]] + CutBefore(s[1..], c)
  }

  /** What strings.Cut returns after the first `c`; nothing when there is none. */
  function CutAfter(s: string, c: char): string {
    if s == "" then "" else if s[0] == c then s[1..] else CutAfter(s[1..], c)
  }

  lemma {:induction false} CutAtFirst(a: string, b: string, c: char)
    requires c !in a
    ensures CutBefore(a + [c] + b, c) == a
    ensures CutAfter(a + [c] + b, c) == b
  {
    var t := a + [c] + b;
    if a == "" {
      assert t == [c] + b;
    } else {
      assert a[0] in a;
      assert t[1..] == a[1..] + [c] + b;
      CutAtFirst(a[1..], b, c);
    }
  }
}
