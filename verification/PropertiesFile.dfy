/** Java properties files (`security.properties`): scanning text into an ordered list and printing
    a list as text. Characters stand for bytes. */
module PropertiesFile {
  import opened Text
  import opened XmlProperties

  /** The longest line a scanner accepts is one byte shorter than its largest token. */
  const MAX_TOKEN := 65536

  datatype ScanError = InvalidLine(line: string) | TooLong

  datatype Scanned = Ok(properties: seq<Property>) | Err(error: ScanError)

  predicate EndsInCr(s: string)
  {
    s != [] && s[|s| - 1] == '\r'
  }

  function DropCr(s: string): (r: string)
  {
    if EndsInCr(s) then s[..|s| - 1] else s
  }

  predicate Ignored(line: string)
  {
    line == [] || line[0] == '#'
  }

  /** One line, after its terminator has been removed. */
  function ScanLine(line: string): (r: Scanned)
  {
    if Ignored(line) then Ok([])
    else
      var items := Split(line, '=');
      if |items| == 2 then Ok([Property(items[0], items[1])]) else Err(InvalidLine(line))
  }

  function Then(a: Scanned, b: Scanned): Scanned
  {
    if a.Ok? && b.Ok? then Ok(a.properties + b.properties) else if a.Ok? then b else a
  }

  /** The text up to its first newline, and the text after it. */
  function FirstLine(text: string): (r: (string, string))
    requires text != []
    ensures |r.1| < |text| && '\n' !in r.0
  {
    var i := IndexOf(text, '\n');
    (text[..i], if i < |text| then text[i + 1..] else [])
  }

  /** All lines of a text; the first bad one decides the error. */
  function Scan(text: string): (r: Scanned)
    decreases |text|
  {
    if text == [] then Ok([]) else
      var (line, rest) := FirstLine(text);
      if |line| >= MAX_TOKEN then Err(TooLong)
      else Then(ScanLine(DropCr(line)), Scan(rest))
  }

  /** Scanning appends to a list until a line is bad. */
  method ScanProperties(current: string) returns (properties: seq<Property>, error: Option<ScanError>)
    ensures Scan(current) == if error.None? then Ok(properties) else Err(error.value)
  {
    properties, error := [], None;
    var text := current;
    while text != []
      invariant Scan(current) == Then(Ok(properties), Scan(text))
      decreases |text|
    {
      var (line, rest) := FirstLine(text);
      if |line| >= MAX_TOKEN {
        error := Some(TooLong);
        return;
      }
      line := DropCr(line);
      if !Ignored(line) {
        var items := Split(line, '=');
        if |items| != 2 {
          error := Some(InvalidLine(line));
          return;
        }
        ghost var before := properties;
        properties := properties + [Property(items[0], items[1])];
        assert Scan(rest).Ok? ==> before + ([Property(items[0], items[1])] + Scan(rest).properties) == properties + Scan(rest).properties;
      } else {
        assert Scan(rest).Ok? ==> [] + Scan(rest).properties == Scan(rest).properties;
      }
      text := rest;
    }
  }

  /** The scan of one line. */
  function ScanFirst(line: string): (r: Scanned)
  {
    if |line| >= MAX_TOKEN then Err(TooLong) else ScanLine(DropCr(line))
  }

  lemma ScanStep(line: string, rest: string)
    requires '\n' !in line
    ensures Scan(line + "\n" + rest) == Then(ScanFirst(line), Scan(rest))
  {
    var text := line + "\n" + rest;
    IndexOfAppend(line, '\n', rest);
    assert FirstLine(text) == (line, rest) by {
      assert text[..|line|] == line && text[|line| + 1..] == rest;
    }
  }

  lemma ScanLastLine(line: string)
    requires '\n' !in line
    ensures Scan(line) == ScanFirst(line)
  {
    if line != [] {
      assert FirstLine(line) == (line, []) by {
        assert forall j | 0 <= j < |line| :: line[j] in line;
        assert line[..|line|] == line;
      }
      var first := ScanFirst(line);
      assert first.Ok? ==> first.properties + [] == first.properties;
    }
  }

  lemma IgnoredIsSkipped(line: string, rest: string)
    requires '\n' !in line && |line| < MAX_TOKEN && Ignored(DropCr(line))
    ensures Scan(line + "\n" + rest) == Scan(rest)
  {
    ScanStep(line, rest);
    ThenNothing(Scan(rest));
  }

  /** A comment line is skipped. */
  lemma CommentIsSkipped(comment: string, rest: string)
    requires '\n' !in comment && |comment| + 1 < 65536
    ensures Scan("#" + comment + "\n" + rest) == Scan(rest)
  {
    var line := "#" + comment;
    assert DropCr(line)[0] == '#';
    IgnoredIsSkipped(line, rest);
  }

  /** And so is a blank line, with or without a carriage return. */
  lemma BlankIsSkipped(rest: string)
    ensures Scan("\n" + rest) == Scan(rest) && Scan("\r" + "\n" + rest) == Scan(rest)
  {
    IgnoredIsSkipped("", rest);
    assert "" + "\n" + rest == "\n" + rest;
    IgnoredIsSkipped("\r", rest);
  }

  lemma ThenNothing(a: Scanned)
    ensures Then(a, Ok([])) == a == Then(Ok([]), a)
  {
    if a.Ok? {
      assert a.properties + [] == a.properties == [] + a.properties;
    }
  }

  /** Any other line is a property exactly if it holds one `=`, and else the error is that line. A
      line of 65536 characters is too long. */
  lemma LineScansIff(line: string, name: string, value: string)
    requires '\n' !in line && DropCr(line) != [] && DropCr(line)[0] != '#'
    ensures |line| >= 65536 ==> Scan(line) == Err(TooLong)
    ensures |line| < 65536 ==>
              && (Scan(line) == Ok([Property(name, value)]) <==>
                  DropCr(line) == name + "=" + value && '=' !in name && '=' !in value)
              && (Scan(line).Err? ==> Scan(line) == Err(InvalidLine(DropCr(line))))
              && (Scan(line).Ok? ==> |Scan(line).properties| == 1)
  {
    ScanLastLine(line);
    var content := DropCr(line);
    var items := Split(content, '=');
    SplitPartsLack(content, '=');
    JoinSplit(content, '=');
    if |items| == 2 {
      assert items[0] in items && items[1] in items;
      assert content == items[0] + "=" + items[1];
    }
    if content == name + "=" + value && '=' !in name && '=' !in value {
      SplitCons(name, '=', value);
      SplitWithout(value, '=');
    }
  }

  /** A text followed by a newline and another text scans to both, one after the other. */
  lemma {:induction false} ScanConcat(a: string, b: string)
    ensures Scan(a + "\n" + b) == Then(Scan(a), Scan(b))
    decreases |a|
  {
    if '\n' !in a {
      ScanStep(a, b);
      ScanLastLine(a);
    } else {
      var line, rest := CutAtNewline(a);
      ConcatShifts(line, rest, b);
      ScanStep(line, rest);
      ScanStep(line, rest + "\n" + b);
      ScanConcat(rest, b);
      ThenAssociates(ScanFirst(line), Scan(rest), Scan(b));
    }
  }

  lemma CutAtNewline(a: string) returns (line: string, rest: string)
    requires '\n' in a
    ensures a == line + "\n" + rest && '\n' !in line
  {
    var i := IndexOf(a, '\n');
    line, rest := a[..i], a[i + 1..];
  }

  lemma ConcatShifts(line: string, rest: string, b: string)
    ensures (line + "\n" + rest) + "\n" + b == line + "\n" + (rest + "\n" + b)
  {
  }

  lemma ThenAssociates(a: Scanned, b: Scanned, c: Scanned)
    ensures Then(Then(a, b), c) == Then(a, Then(b, c))
  {
    if a.Ok? && b.Ok? && c.Ok? {
      assert (a.properties + b.properties) + c.properties == a.properties + (b.properties + c.properties);
    }
  }

  // ----- Printing -----

  function Line(p: Property): string
  {
    p.name + "=" + p.value
  }

  function Print(ps: seq<Property>): (text: string)
  {
    if ps == [] then "" else Line(ps[0]) + "\n" + Print(ps[1..])
  }

  lemma {:induction false} PrintSnoc(ps: seq<Property>, p: Property)
    ensures Print(ps + [p]) == Print(ps) + Line(p) + "\n"
  {
    if ps == [] {
      assert [p][1..] == [];
    } else {
      PrintSnoc(ps[1..], p);
      assert (ps + [p])[1..] == ps[1..] + [p];
    }
  }

  method PrintProperties(ps: seq<Property>) returns (text: string)
    ensures text == Print(ps)
  {
    text := "";
    for i := 0 to |ps|
      invariant text == Print(ps[..i])
    {
      assert ps[..i + 1] == ps[..i] + [ps[i]];
      PrintSnoc(ps[..i], ps[i]);
      text := text + ps[i].name + "=" + ps[i].value + "\n";
    }
    assert ps[..|ps|] == ps;
  }

  /** An entry whose line comes back as an entry. */
  predicate Printable(p: Property)
  {
    && '=' !in p.name && '=' !in p.value && '\n' !in p.name && '\n' !in p.value
    && !(p.name != [] && p.name[0] == '#')
    && |p.name| + 1 + |p.value| < MAX_TOKEN
  }

  /** An entry that comes back unchanged. */
  predicate Clean(p: Property)
  {
    Printable(p) && !EndsInCr(p.value)
  }

  function WithoutCr(ps: seq<Property>): (r: seq<Property>)
    ensures |r| == |ps| && forall i | 0 <= i < |ps| :: r[i] == Property(ps[i].name, DropCr(ps[i].value))
  {
    seq(|ps|, i requires 0 <= i < |ps| => Property(ps[i].name, DropCr(ps[i].value)))
  }

  lemma ScanOneLine(p: Property)
    requires Printable(p)
    ensures Scan(Line(p)) == Ok([Property(p.name, DropCr(p.value))])
  {
    var line := Line(p);
    assert line[|p.name|] == '=';
    assert '\n' !in line;
    ScanLastLine(line);
    assert DropCr(line) == p.name + "=" + DropCr(p.value);
    SplitCons(p.name, '=', DropCr(p.value));
    SplitWithout(DropCr(p.value), '=');
    assert p.name != [] ==> line[0] == p.name[0];
    assert DropCr(line)[|p.name|] == '=';
    assert p.name != [] ==> DropCr(line)[0] == p.name[0];
  }

  lemma WithoutCrCons(ps: seq<Property>)
    requires ps != []
    ensures WithoutCr(ps) == [Property(ps[0].name, DropCr(ps[0].value))] + WithoutCr(ps[1..])
  {
  }

  /** Printing and scanning strips one carriage return from each value and changes nothing else. */
  lemma {:induction false} ScanPrint(ps: seq<Property>)
    requires forall p | p in ps :: Printable(p)
    ensures Scan(Print(ps)) == Ok(WithoutCr(ps))
  {
    if ps != [] {
      ScanOneLine(ps[0]);
      ScanPrint(ps[1..]);
      ScanConcat(Line(ps[0]), Print(ps[1..]));
      WithoutCrCons(ps);
    }
  }

  lemma {:induction false} ScannedIsPrintable(text: string)
    requires Scan(text).Ok?
    ensures forall p | p in Scan(text).properties :: Printable(p)
    decreases |text|
  {
    if text != [] {
      var (line, rest) := FirstLine(text);
      ScannedIsPrintable(rest);
      var first := ScanLine(DropCr(line));
      if first.Ok? && first.properties != [] {
        ScannedLineIsPrintable(DropCr(line));
      }
      forall p | p in first.properties + Scan(rest).properties ensures Printable(p) {
        assert p in first.properties || p in Scan(rest).properties;
      }
    }
  }

  lemma ScannedLineIsPrintable(line: string)
    requires '\n' !in line && |line| < MAX_TOKEN
    requires ScanLine(line).Ok? && ScanLine(line).properties != []
    ensures |ScanLine(line).properties| == 1 && Printable(ScanLine(line).properties[0])
  {
    var items := Split(line, '=');
    JoinSplit(line, '=');
    assert items == [items[0], items[1]];
    assert Join(items[1..], "=") == items[1];
    assert line == items[0] + "=" + items[1];
    SplitPartsLack(line, '=');
    assert items[0] in items && items[1] in items;
    assert forall c | c in items[0] :: c in line;
    assert forall c | c in items[1] :: c in line;
    assert items[0] != [] ==> items[0][0] == line[0];
  }

  /** A list survives printing and scanning if and only if every entry is clean. */
  lemma RoundTripIff(ps: seq<Property>)
    ensures Scan(Print(ps)) == Ok(ps) <==> forall p | p in ps :: Clean(p)
  {
    if Scan(Print(ps)) == Ok(ps) {
      ScannedIsPrintable(Print(ps));
      ScanPrint(ps);
      forall p | p in ps ensures Clean(p) {
        var i :| 0 <= i < |ps| && ps[i] == p;
        assert WithoutCr(ps)[i] == ps[i];
      }
    }
    if forall p | p in ps :: Clean(p) {
      ScanPrint(ps);
      forall i | 0 <= i < |ps| ensures WithoutCr(ps)[i] == ps[i] {
        assert Clean(ps[i]);
      }
      assert WithoutCr(ps) == ps;
    }
  }
}
