/** Hadoop configuration documents as ordered property lists. A reader of such a document takes
    the last value of a name, so every list denotes a map. Encoding a list as XML text and
    decoding it again is the identity and is not part of the model. */
module XmlProperties {
  import opened Text
  import opened Sequences

  datatype Property = Property(name: string, value: string)

  type Document = seq<Property>

  /** The last-wins reading of a list. */
  function Denote(ps: seq<Property>): (m: map<string, string>)
  {
    if ps == [] then map[] else
      var last := ps[|ps| - 1];
      Denote(ps[..|ps| - 1])[last.name := last.value]
  }

  lemma DenoteSnoc(front: seq<Property>, v: Property)
    ensures Denote(front + [v]) == Denote(front)[v.name := v.value]
  {
    assert (front + [v])[..|front|] == front;
  }

  lemma {:induction false} DenoteConcat(a: seq<Property>, b: seq<Property>)
    ensures Denote(a + b) == Denote(a) + Denote(b)
  {
    if b == [] {
      assert a + b == a;
    } else {
      var n := |b| - 1;
      DenoteConcat(a, b[..n]);
      FrontAndLast(a, b);
      DenoteSnoc(a + b[..n], b[n]);
    }
  }

  function Names(ps: seq<Property>): (names: seq<string>)
    ensures |names| == |ps| && forall i | 0 <= i < |ps| :: names[i] == ps[i].name
  {
    seq(|ps|, i requires 0 <= i < |ps| => ps[i].name)
  }

  lemma {:induction false} DenoteKeys(ps: seq<Property>)
    ensures forall n :: n in Denote(ps) <==> n in Names(ps)
  {
    if ps != [] {
      var k := |ps| - 1;
      DenoteKeys(ps[..k]);
      assert Names(ps) == Names(ps[..k]) + [ps[k].name];
    }
  }

  /** A name that occurs once denotes its only value. */
  lemma {:induction false} DenoteAt(ps: seq<Property>, i: nat)
    requires i < |ps| && forall j | i < j < |ps| :: ps[j].name != ps[i].name
    ensures ps[i].name in Denote(ps) && Denote(ps)[ps[i].name] == ps[i].value
    decreases |ps|
  {
    var k := |ps| - 1;
    if i < k {
      DenoteAt(ps[..k], i);
    }
  }

  lemma NotBefore(ps: seq<Property>, name: string)
    requires name !in Denote(ps)
    ensures forall j | 0 <= j < |ps| :: ps[j].name != name
  {
    DenoteKeys(ps);
    assert forall j | 0 <= j < |ps| :: Names(ps)[j] in Names(ps);
  }

  /** Handling one more key of a map. */
  lemma OneMoreDone(m: map<string, string>, todo: set<string>, k: string)
    requires k in todo && k in m
    ensures (m - todo)[k := m[k]] == m - (todo - {k})
  {
  }

  /** Adding a new name at the end of a list. */
  lemma AddFresh(ps: seq<Property>, v: Property)
    requires NoDuplicates(Names(ps)) && v.name !in Denote(ps)
    ensures NoDuplicates(Names(ps + [v])) && Denote(ps + [v]) == Denote(ps)[v.name := v.value]
  {
    assert (ps + [v])[..|ps|] == ps;
    NotBefore(ps, v.name);
    assert Names(ps + [v]) == Names(ps) + [v.name];
  }

  // ----- The intended merge -----

  /** The names of a list in the order of their first occurrences. */
  function FirstNames(ps: seq<Property>): (names: seq<string>)
    ensures |names| <= |ps|
  {
    if ps == [] then [] else
      var names := FirstNames(ps[..|ps| - 1]);
      var last := ps[|ps| - 1].name;
      if last in names then names else names + [last]
  }

  lemma {:induction false} FirstNamesAreKeys(ps: seq<Property>)
    ensures NoDuplicates(FirstNames(ps))
    ensures forall n :: n in FirstNames(ps) <==> n in Denote(ps)
  {
    if ps != [] {
      FirstNamesAreKeys(ps[..|ps| - 1]);
    }
  }

  /** First-occurrence order, last value. */
  function Merged(ps: seq<Property>): (merged: seq<Property>)
    ensures |merged| == |FirstNames(ps)|
    ensures forall i | 0 <= i < |merged| ::
              FirstNames(ps)[i] in Denote(ps) && merged[i] == Property(FirstNames(ps)[i], Denote(ps)[FirstNames(ps)[i]])
  {
    var names := FirstNames(ps);
    FirstNamesAreKeys(ps);
    seq(|names|, i requires 0 <= i < |names| => Property(names[i], Denote(ps)[names[i]]))
  }

  lemma MergedNames(ps: seq<Property>)
    ensures Names(Merged(ps)) == FirstNames(ps)
  {
  }

  /** The merge loses nothing: it denotes the same map, without repeated names. */
  lemma MergedDenotes(ps: seq<Property>)
    ensures Denote(Merged(ps)) == Denote(ps)
    ensures NoDuplicates(Names(Merged(ps)))
  {
    MergedNames(ps);
    FirstNamesAreKeys(ps);
    DenoteKeys(Merged(ps));
    forall n | n in Denote(ps) ensures Denote(Merged(ps))[n] == Denote(ps)[n] {
      var i :| 0 <= i < |FirstNames(ps)| && FirstNames(ps)[i] == n;
      DenoteAt(Merged(ps), i);
    }
  }

  lemma {:induction false} FirstNamesGrow(ps: seq<Property>, k: nat)
    requires k <= |ps|
    ensures |FirstNames(ps[..k])| <= |FirstNames(ps)|
    ensures FirstNames(ps[..k]) == FirstNames(ps)[..|FirstNames(ps[..k])|]
    decreases |ps|
  {
    if k == |ps| {
      assert ps[..k] == ps;
    } else {
      var n := |ps| - 1;
      FirstNamesGrow(ps[..n], k);
      assert ps[..n][..k] == ps[..k];
    }
  }

  // ----- DistinctProperties as written -----

  /** The slice and the index map after some of the collected properties. */
  datatype Progress = Progress(distinct: seq<Property>, keys: map<string, nat>)

  /** One iteration. The index stored is the one in the collected list, and it is used on the
      slice of distinct properties, where it may be out of range. */
  function Step(p: Progress, idx: nat, v: Property): (next: Outcome<Progress>)
  {
    if v.name !in p.keys then Returned(Progress(p.distinct + [v], p.keys[v.name := idx]))
    else if p.keys[v.name] < |p.distinct| then Returned(p.(distinct := p.distinct[p.keys[v.name] := v]))
    else Panicked
  }

  function Collected(ps: seq<Property>): (p: Outcome<Progress>)
  {
    if ps == [] then Returned(Progress([], map[])) else
      var k := |ps| - 1;
      match Collected(ps[..k])
      case Panicked => Panicked
      case Returned(p) => Step(p, k, ps[k])
  }

  lemma {:induction false} CollectedPanics(ps: seq<Property>, k: nat)
    requires k <= |ps| && Collected(ps[..k]).Panicked?
    ensures Collected(ps).Panicked?
    decreases |ps|
  {
    if k == |ps| {
      assert ps[..k] == ps;
    } else {
      assert ps[..|ps| - 1][..k] == ps[..k];
      CollectedPanics(ps[..|ps| - 1], k);
    }
  }

  /** What the loop returns. */
  function DistinctOutcome(ps: seq<Property>): (r: Outcome<seq<Property>>)
  {
    match Collected(ps)
    case Panicked => Panicked
    case Returned(p) => Returned(p.distinct)
  }

  method DistinctProperties(base: seq<Property>, extras: seq<Property>) returns (result: Outcome<seq<Property>>)
    ensures result == DistinctOutcome(base + extras)
    ensures result == Returned(Merged(base + extras)) <==> FirstsBeforeRepeats(base + extras)
  {
    var collect := base + extras;
    var distinct: seq<Property> := [];
    var keys: map<string, nat> := map[];
    for idx := 0 to |collect|
      invariant Collected(collect[..idx]) == Returned(Progress(distinct, keys))
    {
      var v := collect[idx];
      CollectedSnoc(collect[..idx], v);
      assert collect[..idx + 1] == collect[..idx] + [v];
      if v.name !in keys {
        keys := keys[v.name := idx];
        distinct := distinct + [v];
      } else {
        var existIdx := keys[v.name];
        if existIdx >= |distinct| {
          CollectedPanics(collect, idx + 1);
          DistinctIffFirstsBeforeRepeats(collect);
          return Panicked;
        }
        distinct := distinct[existIdx := v];
      }
    }
    assert collect[..|collect|] == collect;
    DistinctIffFirstsBeforeRepeats(collect);
    result := Returned(distinct);
  }

  // ----- Exactly when it is the intended merge -----

  predicate Repeats(ps: seq<Property>, i: nat)
    requires i < |ps|
  {
    exists j | 0 <= j < i :: ps[j].name == ps[i].name
  }

  /** No name that first occurs after a repeat ever recurs. */
  predicate FirstsBeforeRepeats(ps: seq<Property>)
  {
    forall r, i, j | 0 <= r < i < j < |ps| && Repeats(ps, r) && !Repeats(ps, i) :: ps[j].name != ps[i].name
  }

  lemma RepeatsPrefix(ps: seq<Property>, k: nat, i: nat)
    requires i < k <= |ps|
    ensures Repeats(ps[..k], i) <==> Repeats(ps, i)
  {
    assert forall j | 0 <= j < k :: ps[..k][j] == ps[j];
  }

  lemma FirstsBeforeRepeatsPrefix(ps: seq<Property>, k: nat)
    requires k <= |ps| && FirstsBeforeRepeats(ps)
    ensures FirstsBeforeRepeats(ps[..k])
  {
    forall r, i, j | 0 <= r < i < j < k && Repeats(ps[..k], r) && !Repeats(ps[..k], i) ensures ps[..k][j].name != ps[..k][i].name {
      RepeatsPrefix(ps, k, r);
      RepeatsPrefix(ps, k, i);
    }
  }

  /** Each key is stored with the position of its first occurrence. */
  lemma {:induction false} CollectedKeys(ps: seq<Property>, p: Progress)
    requires Collected(ps) == Returned(p)
    ensures p.keys.Keys == Denote(ps).Keys && |p.distinct| == |FirstNames(ps)|
    ensures forall n | n in p.keys :: FirstAt(ps, n, p.keys[n])
  {
    if ps != [] {
      var k := |ps| - 1;
      var front := ps[..k];
      var q := Collected(front).value;
      CollectedKeys(front, q);
      FirstNamesAreKeys(front);
      forall n | n in p.keys ensures FirstAt(ps, n, p.keys[n]) {
        if n in q.keys {
          assert FirstAt(front, n, q.keys[n]);
        } else {
          NotBefore(front, n);
        }
      }
    }
  }

  predicate FirstAt(ps: seq<Property>, name: string, f: nat)
  {
    f < |ps| && ps[f].name == name && forall j | 0 <= j < f :: ps[j].name != name
  }

  /** Before the first repeat, positions in the list and among the first names are the same. */
  lemma {:induction false} FirstNamesWithoutRepeats(ps: seq<Property>)
    requires forall i | 0 <= i < |ps| :: !Repeats(ps, i)
    ensures FirstNames(ps) == Names(ps)
  {
    if ps != [] {
      var k := |ps| - 1;
      assert forall i | 0 <= i < k :: Repeats(ps[..k], i) ==> Repeats(ps, i);
      FirstNamesWithoutRepeats(ps[..k]);
      assert Names(ps) == Names(ps[..k]) + [ps[k].name];
      assert ps[k].name !in Names(ps[..k]) by {
        assert forall j | 0 <= j < k :: Names(ps[..k])[j] == ps[j].name;
        assert !Repeats(ps, k);
      }
    }
  }

  lemma {:induction false} RepeatsShorten(ps: seq<Property>, r: nat)
    requires r < |ps| && Repeats(ps, r)
    ensures |FirstNames(ps)| < |ps|
    decreases |ps|
  {
    var k := |ps| - 1;
    if r == k {
      var j :| 0 <= j < r && ps[j].name == ps[r].name;
      DenoteKeys(ps[..k]);
      FirstNamesAreKeys(ps[..k]);
      assert Names(ps[..k])[j] == ps[k].name;
    } else {
      assert Repeats(ps[..k], r);
      RepeatsShorten(ps[..k], r);
    }
  }

  /** Where an existing name's first occurrence precedes all repeats, its stored index is its place. */
  lemma StoredIndexIsPlace(ps: seq<Property>, f: nat)
    requires f < |ps| && forall r | 0 <= r <= f :: !Repeats(ps, r)
    ensures f < |FirstNames(ps)| && FirstNames(ps)[f] == ps[f].name
  {
    var front := ps[..f + 1];
    assert forall i | 0 <= i <= f :: Repeats(front, i) ==> Repeats(ps, i);
    FirstNamesWithoutRepeats(front);
    FirstNamesGrow(ps, f + 1);
    assert FirstNames(front)[f] == ps[f].name;
  }

  lemma MergedSnocNew(front: seq<Property>, v: Property)
    requires v.name !in Denote(front)
    ensures Merged(front + [v]) == Merged(front) + [v]
  {
    var ps := front + [v];
    assert ps[..|ps| - 1] == front;
    FirstNamesAreKeys(front);
    forall i | 0 <= i < |FirstNames(front)| ensures Merged(ps)[i] == Merged(front)[i] {
      assert FirstNames(front)[i] in FirstNames(front);
    }
  }

  lemma MergedSnocOld(front: seq<Property>, v: Property, f: nat)
    requires f < |FirstNames(front)| && FirstNames(front)[f] == v.name
    ensures Merged(front + [v]) == Merged(front)[f := v]
  {
    var ps := front + [v];
    assert ps[..|ps| - 1] == front;
    FirstNamesAreKeys(front);
  }

  lemma {:induction false} OrderedListIsMerged(ps: seq<Property>)
    requires FirstsBeforeRepeats(ps)
    ensures Collected(ps).Returned? && Collected(ps).value.distinct == Merged(ps)
  {
    if ps != [] {
      var k := |ps| - 1;
      var front := ps[..k];
      assert ps == front + [ps[k]];
      FirstsBeforeRepeatsPrefix(ps, k);
      OrderedListIsMerged(front);
      var p := Collected(front).value;
      CollectedKeys(front, p);
      var name := ps[k].name;
      if name in p.keys {
        var f := p.keys[name];
        assert FirstAt(front, name, f);
        NoRepeatUpTo(front, ps[k], f);
        StoredIndexIsPlace(front, f);
        MergedSnocOld(front, ps[k], f);
      } else {
        MergedSnocNew(front, ps[k]);
      }
    }
  }

  /** If the last name of such a list first occurs at `f`, nothing up to `f` is a repeat. */
  lemma NoRepeatUpTo(front: seq<Property>, v: Property, f: nat)
    requires FirstsBeforeRepeats(front + [v])
    requires FirstAt(front, v.name, f)
    ensures forall r | 0 <= r <= f :: !Repeats(front, r)
  {
    var ps := front + [v];
    assert forall j | 0 <= j < |front| :: front[j] == ps[j];
    assert !Repeats(ps, f) && !Repeats(front, f) && ps[|front|].name == ps[f].name;
    forall r | 0 <= r < f ensures !Repeats(front, r) {
      assert Repeats(front, r) ==> Repeats(ps, r);
    }
  }

  /** A name that first occurs late and recurs is written to a place that is not its own, and
      nothing ever writes that place back. */
  lemma {:induction false} LateNameMisplaced(ps: seq<Property>, i: nat, j: nat)
    requires i < j < |ps| && !Repeats(ps, i) && ps[j].name == ps[i].name
    requires Collected(ps).Returned?
    ensures i < |Collected(ps).value.distinct| && Collected(ps).value.distinct[i].name == ps[i].name
    decreases |ps|
  {
    var k := |ps| - 1;
    var p := Collected(ps[..k]).value;
    CollectedKeys(ps[..k], p);
    DenoteKeys(ps[..k]);
    assert Names(ps[..k])[i] == ps[i].name;
    assert FirstAt(ps[..k], ps[i].name, p.keys[ps[i].name]);
    assert p.keys[ps[i].name] == i;
    forall n | n in p.keys && p.keys[n] == i ensures n == ps[i].name {
      assert FirstAt(ps[..k], n, i);
    }
    if j < k {
      assert !Repeats(ps[..k], i);
      LateNameMisplaced(ps[..k], i, j);
    }
  }

  /** A name's place among the first names is at most the number of names before it. */
  lemma PlaceOfFirst(ps: seq<Property>, i: nat)
    requires i < |ps| && !Repeats(ps, i)
    ensures |FirstNames(ps[..i])| < |FirstNames(ps)| && FirstNames(ps)[|FirstNames(ps[..i])|] == ps[i].name
  {
    var front := ps[..i + 1];
    DenoteKeys(ps[..i]);
    FirstNamesAreKeys(ps[..i]);
    assert front[..i] == ps[..i];
    assert ps[i].name !in Names(ps[..i]);
    FirstNamesGrow(ps, i + 1);
  }

  predicate Recurs(ps: seq<Property>, i: nat)
    requires i < |ps|
  {
    exists j | i < j < |ps| :: ps[j].name == ps[i].name
  }

  /** The name at place `y` is the `y`-th first name, or one that first occurs at position `y` and recurs. */
  predicate Placed(ps: seq<Property>, y: nat, name: string)
  {
    || (y < |FirstNames(ps)| && name == FirstNames(ps)[y])
    || (y < |ps| && !Repeats(ps, y) && Recurs(ps, y) && name == ps[y].name)
  }

  lemma PlacedStays(ps: seq<Property>, y: nat, name: string)
    requires ps != [] && Placed(ps[..|ps| - 1], y, name)
    ensures Placed(ps, y, name)
  {
    var front := ps[..|ps| - 1];
    if y < |front| {
      RepeatsPrefix(ps, |front|, y);
      if Recurs(front, y) {
        var j :| y < j < |front| && front[j].name == front[y].name;
        assert ps[j].name == ps[y].name;
      }
    }
  }

  lemma {:induction false} NamesArePlaced(ps: seq<Property>, p: Progress, y: nat)
    requires Collected(ps) == Returned(p) && y < |p.distinct|
    ensures Placed(ps, y, p.distinct[y].name)
  {
    var k := |ps| - 1;
    var front, q := ps[..k], Collected(ps[..k]).value;
    CollectedKeys(front, q);
    FirstNamesAreKeys(front);
    if ps[k].name in q.keys && q.keys[ps[k].name] == y {
      assert FirstAt(front, ps[k].name, y);
      assert ps[k].name == ps[y].name;
    } else if y < |q.distinct| {
      NamesArePlaced(front, q, y);
      PlacedStays(ps, y, q.distinct[y].name);
    }
  }

  lemma PlacesGrow(ps: seq<Property>, i: nat, y: nat)
    requires i < |ps| && y < |ps| && |FirstNames(ps[..i])| < |FirstNames(ps[..y])|
    ensures i < y
  {
    if y <= i {
      assert ps[..i][..y] == ps[..y];
      FirstNamesGrow(ps[..i], y);
    }
  }

  /** The name that belongs to place `i`, where a late name was written, is lost; or it recurs
      too, and then a later place has lost its name. */
  lemma {:induction false} LostName(ps: seq<Property>, p: Progress, r: nat, i: nat) returns (name: string)
    requires Collected(ps) == Returned(p)
    requires r < i < |ps| && Repeats(ps, r) && !Repeats(ps, i) && Recurs(ps, i)
    ensures name in FirstNames(ps) && name !in Names(p.distinct)
    decreases |ps| - i
  {
    var j :| i < j < |ps| && ps[j].name == ps[i].name;
    LateNameMisplaced(ps, i, j);
    CollectedKeys(ps, p);
    LateNameBelongsEarlier(ps, r, i);
    name := FirstNames(ps)[i];
    if name in Names(p.distinct) {
      var y :| 0 <= y < |p.distinct| && p.distinct[y].name == name;
      NamesArePlaced(ps, p, y);
      LaterPlace(ps, r, i, y);
      name := LostName(ps, p, r, y);
    }
  }

  lemma LaterPlace(ps: seq<Property>, r: nat, i: nat, y: nat)
    requires r < i < |FirstNames(ps)| && Repeats(ps, r) && y != i && Placed(ps, y, FirstNames(ps)[i])
    ensures i < y < |ps| && !Repeats(ps, y) && Recurs(ps, y)
  {
    FirstNamesAreKeys(ps);
    PlaceOfFirst(ps, y);
    assert Repeats(ps[..i], r);
    RepeatsShorten(ps[..i], r);
    PlacesGrow(ps, i, y);
  }

  /** DistinctProperties returns the intended merge if and only if no name that first occurs after
      a repeat recurs. Otherwise it panics or loses a name, so it keeps the denoted map under the
      same condition. */
  lemma DistinctIffFirstsBeforeRepeats(ps: seq<Property>)
    ensures FirstsBeforeRepeats(ps) <==> DistinctOutcome(ps) == Returned(Merged(ps))
    ensures FirstsBeforeRepeats(ps) <==> DistinctOutcome(ps).Returned? && Denote(DistinctOutcome(ps).value) == Denote(ps)
    ensures FirstsBeforeRepeats(ps) <==>
            DistinctOutcome(ps).Returned? && forall n | n in Denote(ps) :: n in Names(DistinctOutcome(ps).value)
  {
    if FirstsBeforeRepeats(ps) {
      OrderedListIsMerged(ps);
      MergedDenotes(ps);
      DenoteKeys(Merged(ps));
    } else if Collected(ps).Returned? {
      var p := Collected(ps).value;
      var r, i, j :| 0 <= r < i < j < |ps| && Repeats(ps, r) && !Repeats(ps, i) && ps[j].name == ps[i].name;
      var name := LostName(ps, p, r, i);
      FirstNamesAreKeys(ps);
      DenoteKeys(p.distinct);
      MergedNames(ps);
    }
  }

  lemma LateNameBelongsEarlier(ps: seq<Property>, r: nat, i: nat)
    requires r < i < |ps| && Repeats(ps, r) && !Repeats(ps, i)
    ensures i < |Merged(ps)| ==> Merged(ps)[i].name != ps[i].name
  {
    assert Repeats(ps[..i], r);
    RepeatsShorten(ps[..i], r);
    PlaceOfFirst(ps, i);
    FirstNamesAreKeys(ps);
  }

  /** Two lists without repeated names, one after the other, are always merged as intended. */
  lemma DuplicateFreeListsMerge(base: seq<Property>, extras: seq<Property>)
    requires NoDuplicates(Names(base)) && NoDuplicates(Names(extras))
    ensures FirstsBeforeRepeats(base + extras)
  {
    var ps := base + extras;
    assert forall q, r | 0 <= q < r < |base| :: Names(base)[q] != Names(base)[r];
    assert forall r | 0 <= r < |base| :: !Repeats(ps, r);
    forall r, i, j | 0 <= r < i < j < |ps| && Repeats(ps, r) && !Repeats(ps, i) ensures ps[j].name != ps[i].name {
      assert Names(extras)[i - |base|] != Names(extras)[j - |base|];
    }
  }

  /** Outside that condition entries are lost, or the call panics. */
  lemma LateRepeatsAreNotMerged(a: string, b: string, c: string)
    requires a != b && b != c && a != c
    ensures var lossy := [Property(a, ""), Property(a, ""), Property(b, ""), Property(c, ""), Property(b, "")];
            && Collected(lossy).Returned?
            && Collected(lossy).value.distinct == [Property(a, ""), Property(b, ""), Property(b, "")]
    ensures Collected([Property(a, ""), Property(a, ""), Property(b, ""), Property(b, "")]).Panicked?
  {
    var pa, pb, pc := Property(a, ""), Property(b, ""), Property(c, "");
    assert Collected([]) == Returned(Progress([], map[]));
    CollectedSnoc([], pa);
    CollectedSnoc([pa], pa);
    CollectedSnoc([pa, pa], pb);
    assert [] + [pa] == [pa] && [pa] + [pa] == [pa, pa] && [pa, pa] + [pb] == [pa, pa, pb];
    assert [pa, pa, pb] + [pb] == [pa, pa, pb, pb];
    assert [pa, pa, pb] + [pc] == [pa, pa, pb, pc] && [pa, pa, pb, pc] + [pb] == [pa, pa, pb, pc, pb];
    CollectedSnoc([pa, pa, pb], pb);
    CollectedSnoc([pa, pa, pb], pc);
    CollectedSnoc([pa, pa, pb, pc], pb);
  }

  lemma CollectedSnoc(front: seq<Property>, v: Property)
    requires Collected(front).Returned?
    ensures Collected(front + [v]) == Step(Collected(front).value, |front|, v)
  {
    assert (front + [v])[..|front|] == front;
  }
}
