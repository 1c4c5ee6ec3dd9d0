/** Pod names: how the StatefulSets' pods are named, how a script gets its ordinal back from
    its own name, and the lists of NameNode ids that different parts of the operator build. */
module PodNames {
  import opened Text
  import opened Sequences

  const NAME_NODE := "namenode"
  const JOURNAL_NODE := "journalnode"

  /** The name of a role group's StatefulSet and Service (`RoleGroupInfo.GetFullName`). */
  function FullName(cluster: string, role: string, group: string): (name: string)
  {
    cluster + "-" + role + "-" + group
  }

  function PodName(statefulSet: string, ordinal: nat): (name: string)
  {
    Sprintf("%s-%d", [Str(statefulSet), Num(ordinal)])
  }

  lemma PodNameText(statefulSet: string, ordinal: nat)
    ensures PodName(statefulSet, ordinal) == statefulSet + ("-" + Itoa(ordinal)) == statefulSet + "-" + Itoa(ordinal)
  {
    assert "%s-%d" == "%s" + ("-" + ("%d" + ""));
    assert [Str(statefulSet), Num(ordinal)] == [Str(statefulSet)] + ([Num(ordinal)] + []);
    SprintfStr("-" + ("%d" + ""), statefulSet, [Num(ordinal)] + []);
    SprintfPlain("-", "%d" + "", [Num(ordinal)] + []);
    SprintfNum("", ordinal, []);
  }

  // ----- The ordinal, as format-zookeeper reads it -----

  /** What `sed -e 's/.*-//'` leaves of a name: the part after the last dash. */
  function AfterLastDash(name: string): (rest: string)
    ensures '-' !in rest
  {
    var i := IndexOf(name, '-');
    if i == |name| then (assert forall j | 0 <= j < |name| :: name[j] != '-'; name)
    else AfterLastDash(name[i + 1..])
  }

  lemma {:induction false} AfterLastDashAppend(a: string, b: string)
    requires '-' !in b
    ensures AfterLastDash(a + "-" + b) == b
    decreases |a|
  {
    var s := a + "-" + b;
    var i := IndexOf(s, '-');
    assert s[|a|] == '-';
    assert i <= |a|;
    if i == |a| {
      assert s[i + 1..] == b;
      assert forall j | 0 <= j < |b| :: b[j] in b;
    } else {
      AfterLastDashAppend(a[i + 1..], b);
      assert s[i + 1..] == a[i + 1..] + "-" + b;
    }
  }

  /** The test `"0" -eq $(echo $POD_NAME | sed ...)`. */
  predicate IsFirstOrdinal(podName: string)
  {
    var digits := AfterLastDash(podName);
    AllDigits(digits) && Atoi(digits) == 0
  }

  /** Whatever dashes and digits the StatefulSet's name holds, the ordinal comes back exactly,
      so the test singles out ordinal 0. */
  lemma OrdinalRecovered(statefulSet: string, ordinal: nat)
    ensures AfterLastDash(PodName(statefulSet, ordinal)) == Itoa(ordinal)
    ensures IsFirstOrdinal(PodName(statefulSet, ordinal)) <==> ordinal == 0
  {
    PodNameText(statefulSet, ordinal);
    DigitsLack(ordinal, '-');
    AfterLastDashAppend(statefulSet, Itoa(ordinal));
    AtoiItoa(ordinal);
  }

  lemma PodNameInjective(s0: string, n0: nat, s1: string, n1: nat)
    requires PodName(s0, n0) == PodName(s1, n1)
    ensures s0 == s1 && n0 == n1
  {
    OrdinalRecovered(s0, n0);
    OrdinalRecovered(s1, n1);
    ItoaInjective(n0, n1);
    PodNameText(s0, n0);
    PodNameText(s1, n1);
    assert PodName(s0, n0)[..|s0|] == s0;
    assert PodName(s1, n1)[..|s1|] == s1;
  }

  /** A NameNode's id: its pod name. */
  function NameNodeId(cluster: string, group: string, ordinal: nat): (id: string)
  {
    PodName(FullName(cluster, NAME_NODE, group), ordinal)
  }

  /** Ids are injective in group and ordinal, for all group names. */
  lemma NameNodeIdInjective(cluster: string, g0: string, n0: nat, g1: string, n1: nat)
    requires NameNodeId(cluster, g0, n0) == NameNodeId(cluster, g1, n1)
    ensures g0 == g1 && n0 == n1
  {
    PodNameInjective(FullName(cluster, NAME_NODE, g0), n0, FullName(cluster, NAME_NODE, g1), n1);
    var prefix := cluster + "-" + NAME_NODE + "-";
    assert (prefix + g0)[|prefix|..] == g0;
    assert (prefix + g1)[|prefix|..] == g1;
  }

  // ----- Lists of pod names -----

  /** Pods 0 to n-1 of one StatefulSet. */
  function PodNameList(statefulSet: string, n: nat): (names: seq<string>)
    ensures |names| == n
    ensures forall i | 0 <= i < n :: names[i] == PodName(statefulSet, i)
  {
    if n == 0 then [] else PodNameList(statefulSet, n - 1) + [PodName(statefulSet, n - 1)]
  }

  method CreatePodNamesByReplicas(replicas: int, statefulSet: string) returns (names: Outcome<seq<string>>)
    ensures names.Returned? <==> replicas >= 0
    ensures names.Returned? ==> names.value == PodNameList(statefulSet, replicas)
  {
    if replicas < 0 {
      return Panicked;
    }
    var podNames := new string[replicas](_ => "");
    for i := 0 to replicas
      invariant forall j | 0 <= j < i :: podNames[j] == PodName(statefulSet, j)
    {
      podNames[i] := PodName(statefulSet, i);
    }
    names := Returned(podNames[..]);
  }

  // ----- The ids of all NameNode groups -----

  /** Role groups by name; a group's replica count is a pointer that may be nil. */
  type Groups = map<string, Option<int>>

  function Count(groups: Groups, group: string): (n: nat)
    requires group in groups
  {
    if groups[group].Some? && groups[group].value >= 0 then groups[group].value else 0
  }

  /** `id` names a pod of one of the groups in `some`. */
  ghost predicate IsId(cluster: string, groups: Groups, some: set<string>, id: string)
    requires some <= groups.Keys
  {
    exists g, i: nat :: g in some && i < Count(groups, g) && id == NameNodeId(cluster, g, i)
  }

  /** `ids` holds every pod of the groups in `some`, each exactly once, and nothing else. */
  ghost predicate Lists(cluster: string, groups: Groups, some: set<string>, ids: seq<string>)
    requires some <= groups.Keys
  {
    && NoDuplicates(ids)
    && forall id :: id in ids <==> IsId(cluster, groups, some, id)
  }

  /** Appending another group's first k pods to a list that holds the groups in `done`. */
  ghost predicate ListsAlso(cluster: string, groups: Groups, done: set<string>, group: string, k: nat, ids: seq<string>)
    requires done <= groups.Keys
  {
    && NoDuplicates(ids)
    && forall id :: id in ids <==> IsId(cluster, groups, done, id) || exists i: nat :: i < k && id == NameNodeId(cluster, group, i)
  }

  lemma ListsAlsoStep(cluster: string, groups: Groups, done: set<string>, group: string, k: nat, ids: seq<string>)
    requires done <= groups.Keys && group !in done
    requires ListsAlso(cluster, groups, done, group, k, ids)
    ensures ListsAlso(cluster, groups, done, group, k + 1, ids + [NameNodeId(cluster, group, k)])
  {
    var next := NameNodeId(cluster, group, k);
    forall g, i: nat | NameNodeId(cluster, g, i) == next ensures g == group && i == k {
      NameNodeIdInjective(cluster, g, i, group, k);
    }
    assert next !in ids;
  }

  lemma ListsAlsoAll(cluster: string, groups: Groups, done: set<string>, group: string, ids: seq<string>)
    requires done <= groups.Keys && group in groups
    requires ListsAlso(cluster, groups, done, group, Count(groups, group), ids)
    ensures Lists(cluster, groups, done + {group}, ids)
  {
    forall id ensures IsId(cluster, groups, done + {group}, id) <==>
        IsId(cluster, groups, done, id) || exists i: nat :: i < Count(groups, group) && id == NameNodeId(cluster, group, i) {
    }
  }

  /** Discovery's list: groups in arbitrary order, a nil replica count counting as no pods. */
  method GetPodNames(cluster: string, groups: Groups) returns (podNames: seq<string>)
    ensures Lists(cluster, groups, groups.Keys, podNames)
  {
    podNames := [];
    var todo := groups.Keys;
    while todo != {}
      invariant todo <= groups.Keys
      invariant Lists(cluster, groups, groups.Keys - todo, podNames)
    {
      var group :| group in todo;
      ghost var done := groups.Keys - todo;
      var statefulSet := Sprintf("%s-namenode-%s", [Str(cluster), Str(group)]);
      StatefulSetText(cluster, group);
      if groups[group].Some? {
        var replicas := groups[group].value;
        var i := 0;
        while i < replicas
          invariant 0 <= i && (i <= replicas || i == 0)
          invariant ListsAlso(cluster, groups, done, group, i, podNames)
        {
          ListsAlsoStep(cluster, groups, done, group, i, podNames);
          podNames := podNames + [Sprintf("%s-%d", [Str(statefulSet), Num(i)])];
          i := i + 1;
        }
      }
      ListsAlsoAll(cluster, groups, done, group, podNames);
      todo := todo - {group};
      assert groups.Keys - todo == done + {group};
    }
    assert groups.Keys - todo == groups.Keys;
  }

  lemma StatefulSetText(cluster: string, group: string)
    ensures Sprintf("%s-namenode-%s", [Str(cluster), Str(group)]) == FullName(cluster, NAME_NODE, group)
  {
    assert "%s-namenode-%s" == "%s" + ("-namenode-" + ("%s" + ""));
    assert [Str(cluster), Str(group)] == [Str(cluster)] + ([Str(group)] + []);
    SprintfStr("-namenode-" + ("%s" + ""), cluster, [Str(group)] + []);
    SprintfPlain("-namenode-", "%s" + "", [Str(group)] + []);
    SprintfStr("", group, []);
    assert "-namenode-" == "-" + NAME_NODE + "-";
  }

  lemma {:induction false} ListsAlsoMany(cluster: string, groups: Groups, done: set<string>, group: string, n: nat, ids: seq<string>)
    requires done <= groups.Keys && group !in done
    requires Lists(cluster, groups, done, ids)
    ensures ListsAlso(cluster, groups, done, group, n, ids + PodNameList(FullName(cluster, NAME_NODE, group), n))
  {
    var pods := PodNameList(FullName(cluster, NAME_NODE, group), n);
    if n == 0 {
      assert ids + pods == ids;
    } else {
      ListsAlsoMany(cluster, groups, done, group, n - 1, ids);
      var before := ids + PodNameList(FullName(cluster, NAME_NODE, group), n - 1);
      ListsAlsoStep(cluster, groups, done, group, n - 1, before);
      assert ids + pods == before + [NameNodeId(cluster, group, n - 1)];
    }
  }

  /** The list in the wait-for-namenodes script: a nil (or negative) replica count panics. */
  method NameNodeIds(cluster: string, groups: Groups) returns (ids: Outcome<string>, ghost podNames: seq<string>)
    ensures ids.Returned? <==> forall g | g in groups :: groups[g].Some? && groups[g].value >= 0
    ensures ids.Returned? ==> ids.value == Join(podNames, " ") && Lists(cluster, groups, groups.Keys, podNames)
  {
    var names: seq<string> := [];
    var todo := groups.Keys;
    podNames := [];
    while todo != {}
      invariant todo <= groups.Keys
      invariant Lists(cluster, groups, groups.Keys - todo, names)
      invariant forall g | g in groups && g !in todo :: groups[g].Some? && groups[g].value >= 0
    {
      var group :| group in todo;
      ghost var done := groups.Keys - todo;
      if groups[group].None? {
        return Panicked, [];
      }
      var groupPodNames := CreatePodNamesByReplicas(groups[group].value, FullName(cluster, NAME_NODE, group));
      if groupPodNames.Panicked? {
        return Panicked, [];
      }
      ListsAlsoMany(cluster, groups, done, group, groups[group].value, names);
      names := names + groupPodNames.value;
      ListsAlsoAll(cluster, groups, done, group, names);
      todo := todo - {group};
      assert groups.Keys - todo == done + {group};
    }
    assert groups.Keys - todo == groups.Keys;
    podNames := names;
    ids := Returned(Join(names, " "));
  }

  /** Any two lists of the same groups, built in any iteration order, agree as multisets. */
  lemma ListsAgree(cluster: string, groups: Groups, some: set<string>, a: seq<string>, b: seq<string>)
    requires some <= groups.Keys
    requires Lists(cluster, groups, some, a) && Lists(cluster, groups, some, b)
    ensures multiset(a) == multiset(b)
  {
    forall id ensures multiset(a)[id] == multiset(b)[id] {
      OccursOnce(a, id);
      OccursOnce(b, id);
    }
  }

  /** The per-group lists used by the format script and by `dfs.ha.namenodes` partition the
      list of all ids: each id is in exactly one of them, at exactly one position. */
  lemma GroupsPartitionIds(cluster: string, groups: Groups, ids: seq<string>, id: string)
    requires Lists(cluster, groups, groups.Keys, ids)
    ensures id in ids <==> exists g | g in groups :: id in PodNameList(FullName(cluster, NAME_NODE, g), Count(groups, g))
    ensures forall g, h | g in groups && h in groups && g != h ::
              !(id in PodNameList(FullName(cluster, NAME_NODE, g), Count(groups, g))
                && id in PodNameList(FullName(cluster, NAME_NODE, h), Count(groups, h)))
    ensures multiset(ids)[id] == if id in ids then 1 else 0
  {
    OccursOnce(ids, id);
    if id in ids {
      var g, i: nat :| g in groups.Keys && i < Count(groups, g) && id == NameNodeId(cluster, g, i);
      assert PodNameList(FullName(cluster, NAME_NODE, g), Count(groups, g))[i] == id;
    }
    forall g | g in groups && id in PodNameList(FullName(cluster, NAME_NODE, g), Count(groups, g))
      ensures exists i: nat :: i < Count(groups, g) && id == NameNodeId(cluster, g, i)
    {
      var names := PodNameList(FullName(cluster, NAME_NODE, g), Count(groups, g));
      var i :| 0 <= i < |names| && names[i] == id;
      assert id == NameNodeId(cluster, g, i);
    }
    forall g, h, i: nat, j: nat | NameNodeId(cluster, g, i) == id && NameNodeId(cluster, h, j) == id ensures g == h {
      NameNodeIdInjective(cluster, g, i, h, j);
    }
  }
}
