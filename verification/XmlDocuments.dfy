/** The two ways the operator changes a configuration document: `Append`, which merges, and
    `AppendXmlContent`, which only appends. */
module XmlDocuments {
  import opened Text
  import opened Sequences
  import opened XmlProperties

  /** The document that `Append` makes of an existing one. */
  function Append(origin: Document, properties: seq<Property>): (d: Outcome<Document>)
  {
    if origin == [] then Returned([]) else DistinctOutcome(origin + properties)
  }

  class XmlConfiguration {
    var properties: seq<Property>

    constructor (properties: seq<Property>)
      ensures this.properties == properties
    {
      this.properties := properties;
    }

    /** Merges the given properties into the document, unless it is empty, and prints it. */
    method String(extras: seq<Property>) returns (d: Outcome<Document>)
      modifies this
      ensures d == Append(old(properties), extras)
      ensures properties == if d.Returned? then d.value else old(properties)
    {
      if |properties| != 0 {
        var distinct := DistinctProperties(properties, extras);
        if distinct.Panicked? {
          return Panicked;
        }
        properties := distinct.value;
      }
      d := Returned(properties);
    }
  }

  /** Merging into a document with at least one property denotes the overridden map. */
  lemma AppendMerges(origin: Document, properties: seq<Property>)
    requires origin != [] && FirstsBeforeRepeats(origin + properties)
    ensures Append(origin, properties) == Returned(Merged(origin + properties))
    ensures NoDuplicates(Names(Merged(origin + properties)))
    ensures Denote(Merged(origin + properties)) == Denote(origin) + Denote(properties)
  {
    DistinctIffFirstsBeforeRepeats(origin + properties);
    MergedDenotes(origin + properties);
    DenoteConcat(origin, properties);
  }

  /** `Append` overrides, for any lists, if and only if no name that first occurs after a repeat
      recurs in them; but an empty document swallows the properties. */
  lemma AppendOverridesIff(origin: Document, properties: seq<Property>)
    ensures Append(origin, properties).Returned?
            && Denote(Append(origin, properties).value) == Denote(origin) + Denote(properties)
            <==> if origin == [] then properties == [] else FirstsBeforeRepeats(origin + properties)
  {
    if origin != [] {
      DistinctIffFirstsBeforeRepeats(origin + properties);
      DenoteConcat(origin, properties);
    } else if properties != [] {
      DenoteAt(properties, |properties| - 1);
    }
  }

  /** So lists without repeated names always override, unless the document is empty. */
  lemma DuplicateFreeAppendIff(origin: Document, properties: seq<Property>)
    requires NoDuplicates(Names(origin)) && NoDuplicates(Names(properties))
    ensures Append(origin, properties).Returned?
    ensures Denote(Append(origin, properties).value) == Denote(origin) + Denote(properties)
            <==> origin != [] || properties == []
  {
    AppendOverridesIff(origin, properties);
    DuplicateFreeListsMerge(origin, properties);
  }

  // ----- Chains of Append -----

  function AppendAll(origin: Document, batches: seq<seq<Property>>): (d: Outcome<Document>)
  {
    if batches == [] then Returned(origin) else
      match AppendAll(origin, batches[..|batches| - 1])
      case Panicked => Panicked
      case Returned(d) => Append(d, batches[|batches| - 1])
  }

  /** The overrides of all batches, left to right. */
  function DenoteAll(origin: Document, batches: seq<seq<Property>>): (m: map<string, string>)
  {
    if batches == [] then Denote(origin)
    else DenoteAll(origin, batches[..|batches| - 1]) + Denote(batches[|batches| - 1])
  }

  /** A chain of merges never panics, never repeats a name, keeps the order of the names it was
      given and denotes the left-to-right composition of its overrides. */
  lemma {:induction false} AppendAllComposes(origin: Document, batches: seq<seq<Property>>)
    requires origin != [] && NoDuplicates(Names(origin))
    requires forall b | b in batches :: NoDuplicates(Names(b))
    ensures var d := AppendAll(origin, batches);
            && d.Returned? && |d.value| >= |origin| && NoDuplicates(Names(d.value))
            && Names(d.value)[..|origin|] == Names(origin)
            && Denote(d.value) == DenoteAll(origin, batches)
  {
    if batches != [] {
      var n := |batches| - 1;
      AppendAllComposes(origin, batches[..n]);
      var d := AppendAll(origin, batches[..n]).value;
      DuplicateFreeListsMerge(d, batches[n]);
      AppendMerges(d, batches[n]);
      MergedKeepsFront(d, batches[n]);
    }
  }

  /** Merging keeps the names already there, in place. */
  lemma MergedKeepsFront(front: Document, properties: seq<Property>)
    requires NoDuplicates(Names(front))
    ensures |Merged(front + properties)| >= |front|
    ensures Names(Merged(front + properties))[..|front|] == Names(front)
  {
    var ps := front + properties;
    assert ps[..|front|] == front;
    forall i | 0 <= i < |front| ensures !Repeats(front, i) {
      assert forall j | 0 <= j < i :: Names(front)[j] != Names(front)[i];
    }
    FirstNamesWithoutRepeats(front);
    FirstNamesGrow(ps, |front|);
    MergedNames(ps);
  }

  // ----- Append-only overriding -----

  /** Appends every override, in arbitrary order, without looking for the name. */
  method AppendXmlContent(current: Document, overrides: map<string, string>) returns (d: Document)
    ensures |d| == |current| + |overrides| && d[..|current|] == current
    ensures Denote(d[|current|..]) == overrides && NoDuplicates(Names(d[|current|..]))
    ensures Denote(d) == Denote(current) + overrides
  {
    d := current;
    var todo := overrides.Keys;
    ghost var added: seq<Property> := [];
    while todo != {}
      invariant todo <= overrides.Keys
      invariant d == current + added && |added| + |todo| == |overrides|
      invariant Denote(added) == overrides - todo && NoDuplicates(Names(added))
    {
      var k :| k in todo;
      d := d + [Property(k, overrides[k])];
      AddFresh(added, Property(k, overrides[k]));
      added := added + [Property(k, overrides[k])];
      OneMoreDone(overrides, todo, k);
      todo := todo - {k};
    }
    assert overrides - todo == overrides;
    assert d[|current|..] == added;
    DenoteConcat(current, added);
  }

  /** On a non-empty document without repeated names, merging and append-only overriding denote
      the same map, whatever order the overrides were appended in. */
  lemma MergeAndAppendAgree(origin: Document, properties: seq<Property>, added: seq<Property>)
    requires origin != [] && NoDuplicates(Names(origin)) && NoDuplicates(Names(properties))
    requires Denote(added) == Denote(properties)
    ensures Append(origin, properties).Returned? && Denote(Append(origin, properties).value) == Denote(origin + added)
  {
    DenoteConcat(origin, added);
    DuplicateFreeListsMerge(origin, properties);
    AppendMerges(origin, properties);
  }

  // ----- The same batch over and over -----

  function Flatten(batches: seq<seq<Property>>): (ps: seq<Property>)
  {
    if batches == [] then [] else Flatten(batches[..|batches| - 1]) + batches[|batches| - 1]
  }

  /** A list is determined by its names in order and the map it denotes. */
  lemma MergedUnique(ps: seq<Property>, qs: seq<Property>)
    requires NoDuplicates(Names(qs)) && Names(qs) == FirstNames(ps) && Denote(qs) == Denote(ps)
    ensures Merged(ps) == qs
  {
    forall i | 0 <= i < |qs| ensures Merged(ps)[i] == qs[i] {
      assert forall j | i < j < |qs| :: Names(qs)[i] != Names(qs)[j];
      DenoteAt(qs, i);
    }
  }

  lemma FirstNamesSnocOld(front: seq<Property>, v: Property)
    requires v.name in Denote(front)
    ensures FirstNames(front + [v]) == FirstNames(front)
    ensures Denote(front + [v]).Keys == Denote(front).Keys
  {
    assert (front + [v])[..|front|] == front;
    FirstNamesAreKeys(front);
  }

  lemma {:induction false} FirstNamesOld(front: seq<Property>, rest: seq<Property>)
    requires forall p | p in rest :: p.name in Denote(front)
    ensures FirstNames(front + rest) == FirstNames(front)
    ensures Denote(front + rest).Keys == Denote(front).Keys
  {
    if rest == [] {
      assert front + rest == front;
    } else {
      var k := |rest| - 1;
      FirstNamesOld(front, rest[..k]);
      FrontAndLast(front, rest);
      FirstNamesSnocOld(front + rest[..k], rest[k]);
    }
  }

  lemma {:induction false} FlattenDenotesLast(batches: seq<seq<Property>>)
    requires batches != [] && forall b | b in batches :: Names(b) == Names(batches[0])
    ensures Denote(Flatten(batches)) == Denote(batches[|batches| - 1])
  {
    var k := |batches| - 1;
    var front := batches[..k];
    DenoteConcat(Flatten(front), batches[k]);
    if k > 0 {
      FlattenDenotesLast(front);
      assert front[k - 1] in batches && batches[k] in batches;
      DenoteKeys(front[k - 1]);
      DenoteKeys(batches[k]);
    }
  }

  lemma {:induction false} FlattenNames(batches: seq<seq<Property>>, p: Property)
    requires forall b | b in batches :: Names(b) == Names(batches[0])
    requires p in Flatten(batches)
    ensures batches != [] && p.name in Names(batches[0])
  {
    var k := |batches| - 1;
    if p in batches[k] {
      var i :| 0 <= i < |batches[k]| && batches[k][i] == p;
      assert batches[k] in batches && Names(batches[k])[i] == p.name;
    } else {
      FlattenNames(batches[..k], p);
    }
  }

  /** Appending the same names again and again only changes values: the merge of a document, some
      properties and any number of such batches is the document, the properties and the last batch. */
  lemma RepeatedBatchesMerge(head: seq<Property>, batches: seq<seq<Property>>)
    requires batches != [] && NoDuplicates(Names(head + batches[0]))
    requires forall b | b in batches :: Names(b) == Names(batches[0])
    ensures FirstsBeforeRepeats(head + Flatten(batches))
    ensures Merged(head + Flatten(batches)) == head + batches[|batches| - 1]
  {
    var first, last := head + batches[0], batches[|batches| - 1];
    var rest := FlattenTail(batches);
    Associate(head, batches[0], rest);
    LaterNamesAreOld(head, batches, rest);
    OnlyOldNamesFollow(first, rest);
    NoRepeatsInside(first);
    FirstNamesWithoutRepeats(first);
    FirstNamesOld(first, rest);
    assert last in batches;
    SameNamesAfter(head, batches[0], last);
    FlattenDenotesLast(batches);
    LastBatchWins(head, Flatten(batches), last);
    MergedUnique(head + Flatten(batches), head + last);
  }

  lemma LaterNamesAreOld(head: seq<Property>, batches: seq<seq<Property>>, rest: seq<Property>)
    requires batches != [] && forall b | b in batches :: Names(b) == Names(batches[0])
    requires Flatten(batches) == batches[0] + rest
    ensures forall p | p in rest :: p.name in Denote(head + batches[0])
  {
    DenoteKeys(batches[0]);
    DenoteConcat(head, batches[0]);
    forall p | p in rest ensures p.name in Denote(head + batches[0]) {
      assert p in batches[0] + rest;
      FlattenNames(batches, p);
    }
  }

  lemma SameNamesAfter(head: seq<Property>, a: seq<Property>, b: seq<Property>)
    requires Names(a) == Names(b)
    ensures Names(head + a) == Names(head + b)
  {
    assert Names(head + a) == Names(head) + Names(a);
    assert Names(head + b) == Names(head) + Names(b);
  }

  lemma LastBatchWins(head: seq<Property>, a: seq<Property>, b: seq<Property>)
    requires Denote(a) == Denote(b)
    ensures Denote(head + a) == Denote(head + b)
  {
    DenoteConcat(head, a);
    DenoteConcat(head, b);
  }

  lemma NoRepeatsInside(ps: seq<Property>)
    requires NoDuplicates(Names(ps))
    ensures forall i | 0 <= i < |ps| :: !Repeats(ps, i)
  {
    assert forall i, j | 0 <= i < j < |ps| :: Names(ps)[i] != Names(ps)[j];
  }

  lemma OnlyOldNamesFollow(first: seq<Property>, rest: seq<Property>)
    requires NoDuplicates(Names(first)) && forall p | p in rest :: p.name in Denote(first)
    ensures FirstsBeforeRepeats(first + rest)
  {
    var ps := first + rest;
    NoRepeatsInside(first);
    forall i | 0 <= i < |first| ensures !Repeats(ps, i) {
      assert !Repeats(first, i) && forall j | 0 <= j <= i :: ps[j] == first[j];
    }
    forall i | |first| <= i < |ps| ensures Repeats(ps, i) {
      assert ps[i] == rest[i - |first|] && rest[i - |first|] in rest;
      DenoteKeys(first);
      var j :| 0 <= j < |first| && Names(first)[j] == ps[i].name;
      assert ps[j].name == ps[i].name;
    }
  }

  lemma {:induction false} FlattenTail(batches: seq<seq<Property>>) returns (rest: seq<Property>)
    requires batches != []
    ensures Flatten(batches) == batches[0] + rest
  {
    var k := |batches| - 1;
    if k == 0 {
      rest := [];
      assert batches[..0] == [];
    } else {
      var shorter := FlattenTail(batches[..k]);
      rest := shorter + batches[k];
    }
  }
}
