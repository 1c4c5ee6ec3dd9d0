/** Overriding the entries of a properties file, by two routes: replace in the scanned list and
    print it again, or print the overrides and concatenate the texts. */
module PropertyOverrides {
  import opened Text
  import opened Sequences
  import opened XmlProperties
  import opened PropertiesFile

  /** The entry whose value a reader of the list sees. */
  predicate IsLast(ps: seq<Property>, i: nat)
    requires i < |ps|
  {
    forall j | i < j < |ps| :: ps[j].name != ps[i].name
  }

  /** The list with the value of each overridden name replaced at its last occurrence. */
  function Replaced(ps: seq<Property>, overrides: map<string, string>): (r: seq<Property>)
    ensures |r| == |ps|
    ensures forall i | 0 <= i < |ps| ::
              r[i] == if ps[i].name in overrides && IsLast(ps, i) then Property(ps[i].name, overrides[ps[i].name]) else ps[i]
  {
    seq(|ps|, i requires 0 <= i < |ps| =>
      if ps[i].name in overrides && IsLast(ps, i) then Property(ps[i].name, overrides[ps[i].name]) else ps[i])
  }

  /** `after` is `before` with the overrides applied: every entry keeps its place, only visible
      values of overridden names change, and the new names follow, once each, in some order. */
  ghost predicate Overridden(before: seq<Property>, overrides: map<string, string>, after: seq<Property>)
  {
    && |after| >= |before|
    && after[..|before|] == Replaced(before, overrides)
    && NoDuplicates(Names(after[|before|..]))
    && Denote(after[|before|..]) == overrides - Denote(before).Keys
  }

  /** The last position of each name. */
  method IndexByName(entries: seq<Property>) returns (keys: map<string, nat>)
    ensures LastPositions(entries, keys)
  {
    keys := map[];
    for i := 0 to |entries|
      invariant LastPositions(entries[..i], keys)
    {
      LastPositionsStep(entries[..i], entries[i], keys);
      assert entries[..i + 1] == entries[..i] + [entries[i]];
      keys := keys[entries[i].name := i];
    }
    assert entries[..|entries|] == entries;
  }

  class PropertyList {
    var entries: seq<Property>

    constructor (entries: seq<Property>)
      ensures this.entries == entries
    {
      this.entries := entries;
    }

    method OverrideProperties(overrides: map<string, string>)
      modifies this
      ensures Overridden(old(entries), overrides, entries)
    {
      ghost var before := entries;
      OverriddenNothing(before);
      if overrides == map[] {
        return;
      }
      var currentKeys := IndexByName(entries);
      var todo := overrides.Keys;
      ghost var done: map<string, string> := map[];
      while todo != {}
        invariant todo <= overrides.Keys && done == overrides - todo
        invariant Overridden(before, done, entries)
      {
        var k :| k in todo;
        if k in currentKeys {
          var i := currentKeys[k];
          OverrideOld(before, done, entries, i, overrides[k]);
          entries := entries[i := Property(entries[i].name, overrides[k])];
        } else {
          OverrideNew(before, done, entries, k, overrides[k]);
          entries := entries + [Property(k, overrides[k])];
        }
        OneMoreDone(overrides, todo, k);
        done := done[k := overrides[k]];
        todo := todo - {k};
      }
      assert done == overrides;
    }
  }

  lemma OverriddenNothing(ps: seq<Property>)
    ensures Overridden(ps, map[], ps)
  {
    assert Replaced(ps, map[]) == ps;
    assert ps[..|ps|] == ps && ps[|ps|..] == [];
  }

  lemma OverrideOld(before: seq<Property>, done: map<string, string>, entries: seq<Property>, i: nat, v: string)
    requires Overridden(before, done, entries)
    requires i < |before| && IsLast(before, i) && before[i].name in Denote(before)
    ensures entries[i].name == before[i].name
    ensures Overridden(before, done[before[i].name := v], entries[i := Property(before[i].name, v)])
  {
    var name := before[i].name;
    var after := entries[i := Property(name, v)];
    assert entries[i] == entries[..|before|][i];
    ReplaceOne(before, done, i, v);
    assert after[|before|..] == entries[|before|..];
    assert after[..|before|] == entries[..|before|][i := Property(name, v)];
    assert done[name := v] - Denote(before).Keys == done - Denote(before).Keys;
  }

  lemma OverrideNew(before: seq<Property>, done: map<string, string>, entries: seq<Property>, k: string, v: string)
    requires Overridden(before, done, entries)
    requires k !in Denote(before) && k !in done
    ensures Overridden(before, done[k := v], entries + [Property(k, v)])
  {
    var after := entries + [Property(k, v)];
    ReplaceAbsent(before, done, k, v);
    AddFresh(entries[|before|..], Property(k, v));
    assert after[|before|..] == entries[|before|..] + [Property(k, v)];
    assert after[..|before|] == entries[..|before|];
    assert done[k := v] - Denote(before).Keys == (done - Denote(before).Keys)[k := v];
  }

  ghost predicate LastPositions(ps: seq<Property>, keys: map<string, nat>)
  {
    && keys.Keys == Denote(ps).Keys
    && forall n | n in keys :: keys[n] < |ps| && ps[keys[n]].name == n && IsLast(ps, keys[n])
  }

  lemma LastPositionsStep(ps: seq<Property>, v: Property, keys: map<string, nat>)
    requires LastPositions(ps, keys)
    ensures LastPositions(ps + [v], keys[v.name := |ps|])
  {
    assert (ps + [v])[..|ps|] == ps;
    forall n | n in keys && n != v.name ensures IsLast(ps + [v], keys[n]) {
      assert IsLast(ps, keys[n]);
    }
  }

  lemma ReplaceOne(ps: seq<Property>, m: map<string, string>, i: nat, v: string)
    requires i < |ps| && IsLast(ps, i)
    ensures Replaced(ps, m[ps[i].name := v]) == Replaced(ps, m)[i := Property(ps[i].name, v)]
  {
    forall j | 0 <= j < |ps| && j != i && IsLast(ps, j) ensures ps[j].name != ps[i].name {
    }
  }

  lemma ReplaceAbsent(ps: seq<Property>, m: map<string, string>, k: string, v: string)
    requires k !in Denote(ps)
    ensures Replaced(ps, m[k := v]) == Replaced(ps, m)
  {
    NotBefore(ps, k);
  }

  lemma {:induction false} LastOccurrence(ps: seq<Property>, name: string) returns (i: nat)
    requires name in Denote(ps)
    ensures i < |ps| && ps[i].name == name && IsLast(ps, i)
  {
    var k := |ps| - 1;
    if ps[k].name == name {
      i := k;
    } else {
      i := LastOccurrence(ps[..k], name);
    }
  }

  // ----- What an overridden list means -----

  lemma ReplacedDenotes(ps: seq<Property>, overrides: map<string, string>)
    ensures Denote(Replaced(ps, overrides)).Keys == Denote(ps).Keys
    ensures forall n | n in Denote(ps) :: Denote(Replaced(ps, overrides))[n] == if n in overrides then overrides[n] else Denote(ps)[n]
  {
    var r := Replaced(ps, overrides);
    assert Names(r) == Names(ps);
    DenoteKeys(ps);
    DenoteKeys(r);
    forall n | n in Denote(ps) ensures Denote(r)[n] == if n in overrides then overrides[n] else Denote(ps)[n] {
      var i := LastOccurrence(ps, n);
      DenoteAt(ps, i);
      DenoteAt(r, i);
    }
  }

  lemma {:induction false} DuplicateFreeLength(ps: seq<Property>)
    requires NoDuplicates(Names(ps))
    ensures |ps| == |Denote(ps)|
  {
    if ps != [] {
      var k := |ps| - 1;
      assert forall j | 0 <= j < k :: Names(ps)[j] == Names(ps[..k])[j];
      DuplicateFreeLength(ps[..k]);
      DenoteKeys(ps[..k]);
      assert forall j | 0 <= j < k :: Names(ps)[j] != Names(ps)[k];
      assert Denote(ps).Keys == Denote(ps[..k]).Keys + {ps[k].name};
    }
  }

  /** The list grows by exactly the number of new names. */
  lemma OverriddenLength(before: seq<Property>, overrides: map<string, string>, after: seq<Property>)
    requires Overridden(before, overrides, after)
    ensures |after| == |before| + |overrides.Keys - Denote(before).Keys|
  {
    DuplicateFreeLength(after[|before|..]);
    assert (overrides - Denote(before).Keys).Keys == overrides.Keys - Denote(before).Keys;
  }

  /** An overridden list denotes the overridden map. */
  lemma OverriddenDenotes(before: seq<Property>, overrides: map<string, string>, after: seq<Property>)
    requires Overridden(before, overrides, after)
    ensures Denote(after) == Denote(before) + overrides
  {
    assert after == after[..|before|] + after[|before|..];
    DenoteConcat(after[..|before|], after[|before|..]);
    ReplacedDenotes(before, overrides);
    OldAndNew(Denote(before), overrides, Denote(Replaced(before, overrides)));
  }

  lemma OldAndNew(before: map<string, string>, overrides: map<string, string>, replaced: map<string, string>)
    requires replaced.Keys == before.Keys
    requires forall n | n in before :: replaced[n] == if n in overrides then overrides[n] else before[n]
    ensures replaced + (overrides - before.Keys) == before + overrides
  {
  }

  /** Overriding a second time, in whatever order, changes nothing. */
  lemma OverrideTwice(before: seq<Property>, overrides: map<string, string>, after: seq<Property>, again: seq<Property>)
    requires Overridden(before, overrides, after) && Overridden(after, overrides, again)
    ensures again == after
  {
    OverriddenDenotes(before, overrides, after);
    OverriddenLength(after, overrides, again);
    assert overrides.Keys - Denote(after).Keys == {};
    forall i | 0 <= i < |after| ensures Replaced(after, overrides)[i] == after[i] {
      if IsLast(after, i) {
        DenoteAt(after, i);
      }
    }
    assert again[..|after|] == again;
  }

  // ----- Texts -----

  ghost predicate CleanOverrides(overrides: map<string, string>)
  {
    forall k | k in overrides :: Clean(Property(k, overrides[k]))
  }

  lemma AddedEntry(added: seq<Property>, m: map<string, string>, p: Property)
    requires NoDuplicates(Names(added)) && Denote(added) == m && p in added
    ensures p.name in m && m[p.name] == p.value
  {
    var i :| 0 <= i < |added| && added[i] == p;
    assert forall j | i < j < |added| :: Names(added)[i] != Names(added)[j];
    DenoteAt(added, i);
  }

  /** Overriding with clean values adds no entry that would not print and scan back. */
  lemma OverriddenEntry(before: seq<Property>, overrides: map<string, string>, after: seq<Property>, p: Property)
    requires Overridden(before, overrides, after) && CleanOverrides(overrides) && p in after
    ensures p in before || Clean(p)
  {
    var i :| 0 <= i < |after| && after[i] == p;
    if i < |before| {
      assert after[..|before|][i] == p;
    } else {
      var added := after[|before|..];
      assert added[i - |before|] == p;
      AddedEntry(added, overrides - Denote(before).Keys, p);
    }
  }

  /** Replace in the scanned list and print. The ghost result is the list that is printed. */
  method OverridePropertiesFileContent(current: string, overrides: map<string, string>)
      returns (text: string, error: Option<ScanError>, ghost after: seq<Property>)
    ensures error.Some? ==> Scan(current) == Err(error.value) && text == ""
    ensures error.None? ==> Scan(current).Ok? && text == Print(after) && Overridden(Scan(current).properties, overrides, after)
  {
    var properties;
    properties, error := ScanProperties(current);
    after := [];
    if error.Some? {
      return "", error, [];
    }
    var list := new PropertyList(properties);
    list.OverrideProperties(overrides);
    after := list.entries;
    text := PrintProperties(list.entries);
  }

  /** Scanning commutes with overriding, and a second application leaves the text as it is. */
  lemma ScanCommutesWithOverride(current: string, overrides: map<string, string>, after: seq<Property>)
    requires Scan(current).Ok? && forall p | p in Scan(current).properties :: !EndsInCr(p.value)
    requires CleanOverrides(overrides)
    requires Overridden(Scan(current).properties, overrides, after)
    ensures Scan(Print(after)) == Ok(after)
    ensures forall again | Overridden(after, overrides, again) :: Print(again) == Print(after)
  {
    ScannedIsPrintable(current);
    forall p | p in after ensures Clean(p) {
      OverriddenEntry(Scan(current).properties, overrides, after, p);
    }
    RoundTripIff(after);
    forall again | Overridden(after, overrides, again) ensures Print(again) == Print(after) {
      OverrideTwice(Scan(current).properties, overrides, after, again);
    }
  }

  /** Prints the overrides, in arbitrary order. The ghost result is that order. */
  method MakePropertiesFileContent(config: map<string, string>) returns (content: string, ghost printed: seq<Property>)
    ensures content == Print(printed) && NoDuplicates(Names(printed)) && Denote(printed) == config
    ensures CleanOverrides(config) ==> Scan(content).Ok? && Denote(Scan(content).properties) == config
  {
    content, printed := "", [];
    var todo := config.Keys;
    while todo != {}
      invariant todo <= config.Keys && content == Print(printed)
      invariant NoDuplicates(Names(printed)) && Denote(printed) == config - todo
    {
      var k :| k in todo;
      AddFresh(printed, Property(k, config[k]));
      PrintedOneMore(printed, k, config[k]);
      printed := printed + [Property(k, config[k])];
      content := content + k + "=" + config[k] + "\n";
      OneMoreDone(config, todo, k);
      todo := todo - {k};
    }
    if CleanOverrides(config) {
      PrintedScansBack(config, printed);
    }
  }

  lemma PrintedOneMore(printed: seq<Property>, k: string, v: string)
    ensures Print(printed + [Property(k, v)]) == Print(printed) + k + "=" + v + "\n"
  {
    PrintSnoc(printed, Property(k, v));
    Associate(Print(printed), k + "=", v);
    Associate(Print(printed), k, "=");
  }

  lemma PrintedScansBack(config: map<string, string>, printed: seq<Property>)
    requires CleanOverrides(config) && NoDuplicates(Names(printed)) && Denote(printed) == config
    ensures Scan(Print(printed)) == Ok(printed)
  {
    ConcatenatedRoute("", config, printed);
    assert [] + printed == printed;
  }

  function OverrideConfigFileContent(current: string, extra: string): (text: string)
  {
    if current == "" then extra else if extra == "" then current else current + "\n" + extra
  }

  lemma ConcatenatedScan(current: string, extra: string)
    ensures Scan(OverrideConfigFileContent(current, extra)) == Then(Scan(current), Scan(extra))
  {
    if current == "" {
      ThenNothing(Scan(extra));
    } else if extra == "" {
      ThenNothing(Scan(current));
    } else {
      ScanConcat(current, extra);
    }
  }

  /** `w` is `m` without the carriage returns at the end of its values. */
  predicate Stripped(m: map<string, string>, w: map<string, string>)
  {
    w.Keys == m.Keys && forall n | n in m :: w[n] == DropCr(m[n])
  }

  lemma StrippedUpdate(m: map<string, string>, w: map<string, string>, n: string, v: string)
    requires Stripped(m, w)
    ensures Stripped(m[n := v], w[n := DropCr(v)])
  {
  }

  lemma WithoutCrSnoc(front: seq<Property>, p: Property)
    ensures WithoutCr(front + [p]) == WithoutCr(front) + [Property(p.name, DropCr(p.value))]
  {
  }

  lemma {:induction false} WithoutCrDenotes(ps: seq<Property>)
    ensures Stripped(Denote(ps), Denote(WithoutCr(ps)))
  {
    if ps != [] {
      var front, p := ps[..|ps| - 1], ps[|ps| - 1];
      assert ps == front + [p];
      WithoutCrDenotes(front);
      WithoutCrSnoc(front, p);
      DenoteSnoc(front, p);
      DenoteSnoc(WithoutCr(front), Property(p.name, DropCr(p.value)));
      StrippedUpdate(Denote(front), Denote(WithoutCr(front)), p.name, p.value);
    }
  }

  /** The two routes give texts that scan, for every pair of iteration orders, and they scan to
      the same map if and only if no value that stays visible ends in a carriage return. */
  lemma RoutesAgreeIff(current: string, overrides: map<string, string>, after: seq<Property>, printed: seq<Property>)
    requires Scan(current).Ok? && CleanOverrides(overrides)
    requires Overridden(Scan(current).properties, overrides, after)
    requires NoDuplicates(Names(printed)) && Denote(printed) == overrides
    ensures var replaced, concatenated := Scan(Print(after)), Scan(OverrideConfigFileContent(current, Print(printed)));
            var visible := Denote(Scan(current).properties) - overrides.Keys;
            && replaced.Ok? && concatenated.Ok?
            && Denote(concatenated.properties) == Denote(Scan(current).properties) + overrides
            && (Denote(replaced.properties) == Denote(concatenated.properties)
                <==> forall n | n in visible :: !EndsInCr(visible[n]))
  {
    ReplacedRoute(current, overrides, after);
    ConcatenatedRoute(current, overrides, printed);
    StrippedAgreesIff(Denote(Scan(current).properties), overrides, Denote(WithoutCr(after)));
  }

  /** The routes do disagree: on every line whose value ends in two carriage returns, unless it is
      overridden. Scanning strips one of them, and printing and scanning again the other. */
  lemma TwoCrsDisagree(p: Property, overrides: map<string, string>, after: seq<Property>, printed: seq<Property>)
    requires Printable(p) && EndsInCr(p.value) && EndsInCr(DropCr(p.value))
    requires CleanOverrides(overrides) && p.name !in overrides
    requires Overridden([Property(p.name, DropCr(p.value))], overrides, after)
    requires NoDuplicates(Names(printed)) && Denote(printed) == overrides
    ensures var replaced, concatenated := Scan(Print(after)), Scan(OverrideConfigFileContent(Line(p), Print(printed)));
            && replaced.Ok? && concatenated.Ok? && Denote(replaced.properties) != Denote(concatenated.properties)
  {
    ScanOneLine(p);
    DenoteAt([Property(p.name, DropCr(p.value))], 0);
    RoutesAgreeIff(Line(p), overrides, after, printed);
    assert p.name in Denote(Scan(Line(p)).properties) - overrides.Keys;
  }

  /** With nothing to override at all, one route keeps one of the two carriage returns and the
      other keeps none. */
  lemma RoutesDisagree(name: string, value: string)
    requires Printable(Property(name, value + "\r" + "\r"))
    ensures var current, ps := Line(Property(name, value + "\r" + "\r")), [Property(name, value + "\r")];
            && Scan(current) == Ok(ps) && Overridden(ps, map[], ps)
            && Scan(OverrideConfigFileContent(current, Print([]))) == Ok(ps)
            && Scan(Print(ps)) == Ok([Property(name, value)])
  {
    OneCrDropped(value + "\r");
    OneCrDropped(value);
    ScanOneLine(Property(name, value + "\r" + "\r"));
    var ps := [Property(name, value + "\r")];
    OverriddenNothing(ps);
    ScanPrint(ps);
    assert WithoutCr(ps) == [Property(name, value)];
  }

  lemma OneCrDropped(value: string)
    ensures DropCr(value + "\r") == value
  {
  }

  /** For example the text `a=b` with two carriage returns. */
  lemma RoutesDisagreeOnText()
    ensures Scan("a=b\r\r") == Ok([Property("a", "b\r")])
    ensures Scan(Print([Property("a", "b\r")])) == Ok([Property("a", "b")])
  {
    assert "b" + "\r" == "b\r" && "b\r" + "\r" == "b\r\r";
    assert Line(Property("a", "b\r\r")) == "a=b\r\r";
    RoutesDisagree("a", "b");
  }

  lemma ReplacedRoute(current: string, overrides: map<string, string>, after: seq<Property>)
    requires Scan(current).Ok? && CleanOverrides(overrides)
    requires Overridden(Scan(current).properties, overrides, after)
    ensures Scan(Print(after)) == Ok(WithoutCr(after))
    ensures Stripped(Denote(Scan(current).properties) + overrides, Denote(WithoutCr(after)))
  {
    ScannedIsPrintable(current);
    forall p | p in after ensures Printable(p) {
      OverriddenEntry(Scan(current).properties, overrides, after, p);
    }
    ScanPrint(after);
    WithoutCrDenotes(after);
    OverriddenDenotes(Scan(current).properties, overrides, after);
  }

  lemma ConcatenatedRoute(current: string, overrides: map<string, string>, printed: seq<Property>)
    requires Scan(current).Ok? && CleanOverrides(overrides)
    requires NoDuplicates(Names(printed)) && Denote(printed) == overrides
    ensures Scan(OverrideConfigFileContent(current, Print(printed))) == Ok(Scan(current).properties + printed)
    ensures Denote(Scan(current).properties + printed) == Denote(Scan(current).properties) + overrides
  {
    forall p | p in printed ensures Clean(p) {
      AddedEntry(printed, overrides, p);
    }
    RoundTripIff(printed);
    ConcatenatedScan(current, Print(printed));
    DenoteConcat(Scan(current).properties, printed);
  }

  lemma StrippedAgreesIff(before: map<string, string>, overrides: map<string, string>, stripped: map<string, string>)
    requires CleanOverrides(overrides)
    requires Stripped(before + overrides, stripped)
    ensures stripped == before + overrides <==> forall n | n in before - overrides.Keys :: !EndsInCr((before - overrides.Keys)[n])
  {
    var full := before + overrides;
    forall n | n in full ensures stripped[n] == full[n] <==> n in overrides || !EndsInCr(before[n]) {
      if n in overrides {
        assert Clean(Property(n, overrides[n]));
      }
    }
    assert stripped == full <==> forall n | n in full :: stripped[n] == full[n];
    var visible := before - overrides.Keys;
    assert forall n | n in full :: n in visible <==> n !in overrides;
    assert forall n | n in visible :: n in full && visible[n] == before[n];
  }
}
