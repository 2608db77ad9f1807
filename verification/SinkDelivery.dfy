/** The consumer's sink output, read as credentials and as readings. */
module SinkDelivery {
  import opened Wrappers
  import opened Json
  import opened Sorting
  import Text

  datatype Delivery = Delivery(hashes: map<string, bool>, readings: map<int, bool>)

  /** The credential of a sink record; lines without one are other output. */
  function CredentialOf(line: Document): Option<string> {
    match line
    case Parsed(Object(fields)) =>
      var credential := TextField(fields, "credential");
      if credential.Some? && credential.value != "" then credential else None
    case _ => None
  }

  /** The reading a sink record's payload carries, if it carries a number. */
  function ReadingOf(line: Document): Option<int> {
    if CredentialOf(line).None? || "payload" !in line.value.fields then None
    else match line.value.fields["payload"]
      case Object(payload) =>
        if "reading" in payload && payload["reading"].Number? then Some(payload["reading"].number) else None
      case _ => None
  }

  /** The line is an object whose credential is this text. */
  predicate Shows(line: Document, hash: string) {
    line.Parsed? && line.value.Object? && ("credential", Text(hash)) in line.value.fields.Items
  }

  /** The line's payload is an object whose reading is this number. */
  ghost predicate ShowsReading(line: Document, n: int) {
    && line.Parsed? && line.value.Object?
    && exists payload :: ("payload", Object(payload)) in line.value.fields.Items && ("reading", Number(n)) in payload.Items
  }

  /** Only a non-empty text is a credential, and a reading counts only beside one. */
  lemma LineExactly(line: Document, hash: string, n: int)
    ensures CredentialOf(line) == Some(hash) <==> hash != "" && Shows(line, hash)
    ensures ReadingOf(line) == Some(n) <==> ShowsReading(line, n) && exists h :: h != "" && Shows(line, h)
  {
    if ShowsReading(line, n) {
      var payload :| ("payload", Object(payload)) in line.value.fields.Items && ("reading", Number(n)) in payload.Items;
      assert line.value.fields["payload"] == Object(payload) && payload["reading"] == Number(n);
    }
    if CredentialOf(line).Some? {
      assert Shows(line, CredentialOf(line).value);
    }
  }

  /** What the lines show: the credentials of all lines and the readings of those with a
      credential. */
  lemma ParsedExactly(lines: seq<Document>, hash: string, n: int)
    ensures hash in Parsed(lines).hashes <==> hash != "" && exists line :: line in lines && Shows(line, hash)
    ensures n in Parsed(lines).readings
       <==> exists line, h :: line in lines && ShowsReading(line, n) && h != "" && Shows(line, h)
  {
    forall line | line in lines
      ensures CredentialOf(line) == Some(hash) <==> hash != "" && Shows(line, hash)
      ensures ReadingOf(line) == Some(n) <==> ShowsReading(line, n) && exists h :: h != "" && Shows(line, h)
    {
      LineExactly(line, hash, n);
    }
    assert hash in HashesIn(lines) <==> exists line :: line in lines && CredentialOf(line) == Some(hash);
    assert n in ReadingsIn(lines) <==> exists line :: line in lines && ReadingOf(line) == Some(n);
  }

  ghost function HashesIn(lines: seq<Document>): set<string> {
    set line | line in lines && CredentialOf(line).Some? :: CredentialOf(line).value
  }

  ghost function ReadingsIn(lines: seq<Document>): set<int> {
    set line | line in lines && ReadingOf(line).Some? :: ReadingOf(line).value
  }

  ghost function AllTrue<T>(s: set<T>): map<T, bool> {
    map x | x in s :: true
  }

  ghost function Parsed(lines: seq<Document>): Delivery {
    Delivery(AllTrue(HashesIn(lines)), AllTrue(ReadingsIn(lines)))
  }

  method ParseSink(lines: seq<Document>) returns (out: Delivery)
    ensures out == Parsed(lines)
  {
    var hashes: map<string, bool>, readings: map<int, bool> := map[], map[];
    for i := 0 to |lines|
      invariant Delivery(hashes, readings) == Parsed(lines[..i])
    {
      var line := lines[i];
      assert lines[..i + 1] == lines[..i] + [line];
      ParsedSnoc(lines[..i], line);
      var credential := CredentialOf(line);
      if credential.None? {
        continue;
      }
      hashes := hashes[credential.value := true];
      var reading := ReadingOf(line);
      if reading.Some? {
        readings := readings[reading.value := true];
      }
    }
    assert lines[..|lines|] == lines;
    out := Delivery(hashes, readings);
  }

  lemma ParsedOne(line: Document)
    ensures HashesIn([line]) == if CredentialOf(line).Some? then {CredentialOf(line).value} else {}
    ensures ReadingsIn([line]) == if ReadingOf(line).Some? then {ReadingOf(line).value} else {}
  {
    assert line in [line];
  }

  lemma HashesUnion(a: seq<Document>, b: seq<Document>)
    ensures HashesIn(a + b) == HashesIn(a) + HashesIn(b)
  {
    forall h ensures h in HashesIn(a + b) <==> h in HashesIn(a) || h in HashesIn(b) {
    }
  }

  lemma ReadingsUnion(a: seq<Document>, b: seq<Document>)
    ensures ReadingsIn(a + b) == ReadingsIn(a) + ReadingsIn(b)
  {
    forall n ensures n in ReadingsIn(a + b) <==> n in ReadingsIn(a) || n in ReadingsIn(b) {
    }
  }

  lemma AllTrueUnion<K>(s: set<K>, t: set<K>)
    ensures AllTrue(s + t) == AllTrue(s) + AllTrue(t)
  {
  }

  /** Reading lines that are those of two streams, in any order and however often, is the
      union of reading each. */
  lemma ParsedTogether(a: seq<Document>, b: seq<Document>, lines: seq<Document>)
    requires forall line :: line in lines <==> line in a || line in b
    ensures Parsed(lines).hashes == Parsed(a).hashes + Parsed(b).hashes
    ensures Parsed(lines).readings == Parsed(a).readings + Parsed(b).readings
  {
    ParsedBySet(lines, a + b);
    HashesUnion(a, b);
    ReadingsUnion(a, b);
    AllTrueUnion(HashesIn(a), HashesIn(b));
    AllTrueUnion(ReadingsIn(a), ReadingsIn(b));
  }

  lemma AllTrueWith<K>(s: set<K>, k: K)
    ensures AllTrue(s + {k}) == AllTrue(s)[k := true]
  {
  }

  /** Reading one more line. */
  lemma ParsedSnoc(lines: seq<Document>, line: Document)
    ensures Parsed(lines + [line]).hashes
         == if CredentialOf(line).Some? then Parsed(lines).hashes[CredentialOf(line).value := true] else Parsed(lines).hashes
    ensures Parsed(lines + [line]).readings
         == if ReadingOf(line).Some? then Parsed(lines).readings[ReadingOf(line).value := true] else Parsed(lines).readings
  {
    HashesUnion(lines, [line]);
    ReadingsUnion(lines, [line]);
    ParsedOne(line);
    if CredentialOf(line).Some? {
      AllTrueWith(HashesIn(lines), CredentialOf(line).value);
    }
    if ReadingOf(line).Some? {
      AllTrueWith(ReadingsIn(lines), ReadingOf(line).value);
    }
  }

  /** Order and repetition of lines do not matter. */
  lemma ParsedBySet(a: seq<Document>, b: seq<Document>)
    requires forall line :: line in a <==> line in b
    ensures HashesIn(a) == HashesIn(b) && ReadingsIn(a) == ReadingsIn(b)
    ensures Parsed(a) == Parsed(b)
  {
  }

  /* ---- the canonical key of a reading set ---- */

  function Numerals(ns: seq<int>): (r: seq<string>) {
    seq(|ns|, i requires 0 <= i < |ns| => Text.Itoa(ns[i]))
  }

  ghost function ReadingKey(readings: set<int>): string {
    Text.Join(Numerals(Listing(readings, Text.IntLeq)), ",")
  }

  /** Every key of the map is rendered, whatever its value, in ascending order. */
  method ReadingSet(m: map<int, bool>) returns (key: string)
    ensures key == ReadingKey(m.Keys)
  {
    var ns := Enumerate(m.Keys);
    Text.IntsOrdered();
    var inOrder := Sort(ns, Text.IntLeq);
    SortedEnumeration(inOrder, ns, m.Keys, Text.IntLeq);
    ListingIs(inOrder, m.Keys, Text.IntLeq);
    var parts: seq<string> := [];
    for i := 0 to |inOrder|
      invariant parts == Numerals(inOrder[..i])
    {
      parts := parts + [Text.Itoa(inOrder[i])];
    }
    assert inOrder[..|inOrder|] == inOrder;
    key := Text.Join(parts, ",");
  }

  /** The key identifies the set of readings: equal keys, equal sets. */
  lemma ReadingKeyFaithful(a: set<int>, b: set<int>)
    ensures ReadingKey(a) == ReadingKey(b) <==> a == b
  {
    if ReadingKey(a) == ReadingKey(b) {
      Text.IntsOrdered();
      ListingExists(a, Text.IntLeq);
      ListingExists(b, Text.IntLeq);
      var x, y := Listing(a, Text.IntLeq), Listing(b, Text.IntLeq);
      NumeralsPlain(x);
      NumeralsPlain(y);
      Text.JoinInjective(Numerals(x), Numerals(y), ',');
      NumeralsInjective(x, y);
      assert forall n :: n in a <==> n in b;
    }
  }

  /** The key lists the readings in ascending order. */
  lemma KeyAscends(ns: seq<int>)
    requires forall i, j | 0 <= i < j < |ns| :: ns[i] < ns[j]
    ensures ReadingKey(set n | n in ns) == Text.Join(Numerals(ns), ",")
  {
    var readings := set n | n in ns;
    Text.IntsOrdered();
    assert forall n :: n in ns <==> n in readings;
    ListingIs(ns, readings, Text.IntLeq);
  }

  lemma NumeralsPlain(ns: seq<int>)
    ensures forall p | p in Numerals(ns) :: p != "" && ',' !in p
  {
  }

  lemma NumeralsInjective(x: seq<int>, y: seq<int>)
    requires Numerals(x) == Numerals(y)
    ensures x == y
  {
    assert |x| == |Numerals(x)| == |y|;
    forall i | 0 <= i < |x| ensures x[i] == y[i] {
      assert Numerals(x)[i] == Numerals(y)[i];
      Text.ItoaInjective(x[i], y[i]);
    }
  }

  /** A delivery wait compares keys, so it ends only on exactly the wanted readings:
      an extra, a missing or a substituted reading keeps it waiting. */
  lemma WaitAcceptsExactly(lines: seq<Document>, want: seq<int>)
    ensures ReadingKey(Parsed(lines).readings.Keys) == ReadingKey(set n | n in want)
       <==> forall n :: n in ReadingsIn(lines) <==> n in want
  {
    ReadingKeyFaithful(Parsed(lines).readings.Keys, set n | n in want);
    assert Parsed(lines).readings.Keys == ReadingsIn(lines);
    var wanted := set n | n in want;
    assert forall n :: n in want <==> n in wanted;
    if forall n :: n in ReadingsIn(lines) <==> n in want {
      assert ReadingsIn(lines) == wanted;
    }
  }
}
