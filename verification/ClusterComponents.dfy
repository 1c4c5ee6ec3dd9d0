/** What the operator knows of a cluster's role groups, and the JournalNode quorum it derives. */
module ClusterComponents {
  import opened Text
  import opened Sequences
  import opened PodNames

  const DATA_NODE := "datanode"
  datatype Role = NameNode | DataNode | JournalNode

  const JOURNAL_PORT_SUFFIX := ":8485"

  /** One role group; `fullName` is what its RoleGroupInfo answers. */
  datatype ComponentInfo = ComponentInfo(groupName: string, replicas: int, fullName: string)

  type Components = map<string, ComponentInfo>

  /** The components of a role: one for each group, under the group's own name. */
  ghost predicate IsRole(components: Components, cluster: string, role: string, groups: Groups)
  {
    && components.Keys == groups.Keys
    && forall g | g in groups ::
         groups[g].Some? && components[g] == ComponentInfo(g, groups[g].value, FullName(cluster, role, g))
  }

  ghost function RoleComponents(cluster: string, role: string, groups: Groups): (components: Components)
    requires AllCounted(groups)
    ensures IsRole(components, cluster, role, groups)
  {
    map g | g in groups :: ComponentInfo(g, groups[g].value, FullName(cluster, role, g))
  }

  class ClusterComponentsInfo {
    var nameNode: Components
    var dataNode: Components
    var journalNode: Components

    constructor ()
      ensures nameNode == map[] && dataNode == map[] && journalNode == map[]
    {
      nameNode, dataNode, journalNode := map[], map[], map[];
    }

    /** Adds the cluster's roles, some of which may be nil, to the three maps: groups already there
        are overwritten, others stay. A group with a nil replica count panics. */
    method PopulateClusterComponents(cluster: string, nameNodes: Option<Groups>, dataNodes: Option<Groups>,
                                     journalNodes: Option<Groups>) returns (done: Outcome<()>)
      modifies this
      ensures done.Returned? <==> AllCounted(GroupsOf(nameNodes)) && AllCounted(GroupsOf(dataNodes)) && AllCounted(GroupsOf(journalNodes))
      ensures done.Returned? ==>
                && nameNode == old(nameNode) + RoleComponents(cluster, NAME_NODE, GroupsOf(nameNodes))
                && dataNode == old(dataNode) + RoleComponents(cluster, DATA_NODE, GroupsOf(dataNodes))
                && journalNode == old(journalNode) + RoleComponents(cluster, JOURNAL_NODE, GroupsOf(journalNodes))
      ensures done.Returned? ==>
                && (forall g | g in GroupsOf(nameNodes) ::
                      nameNode[g] == ComponentInfo(g, GroupsOf(nameNodes)[g].value, cluster + "-" + "namenode" + "-" + g))
                && (forall g | g in GroupsOf(dataNodes) ::
                      dataNode[g] == ComponentInfo(g, GroupsOf(dataNodes)[g].value, cluster + "-" + "datanode" + "-" + g))
                && (forall g | g in GroupsOf(journalNodes) ::
                      journalNode[g] == ComponentInfo(g, GroupsOf(journalNodes)[g].value, cluster + "-" + "journalnode" + "-" + g))
    {
      var populated;
      nameNode, populated := PopulateRole(nameNode, cluster, NAME_NODE, GroupsOf(nameNodes));
      if !populated {
        return Panicked;
      }
      dataNode, populated := PopulateRole(dataNode, cluster, DATA_NODE, GroupsOf(dataNodes));
      if !populated {
        return Panicked;
      }
      journalNode, populated := PopulateRole(journalNode, cluster, JOURNAL_NODE, GroupsOf(journalNodes));
      if !populated {
        return Panicked;
      }
      done := Returned(());
    }
  }

  function GroupsOf(role: Option<Groups>): Groups
  {
    if role.Some? then role.value else map[]
  }

  predicate AllCounted(groups: Groups)
  {
    forall g | g in groups :: groups[g].Some?
  }

  method PopulateRole(before: Components, cluster: string, role: string, groups: Groups) returns (components: Components, populated: bool)
    ensures populated <==> AllCounted(groups)
    ensures populated ==> components == before + RoleComponents(cluster, role, groups)
  {
    components := before;
    var todo := groups.Keys;
    while todo != {}
      invariant todo <= groups.Keys && components.Keys == before.Keys + (groups.Keys - todo)
      invariant forall g | g in groups && g !in todo ::
                  groups[g].Some? && components[g] == ComponentInfo(g, groups[g].value, FullName(cluster, role, g))
      invariant forall g | g in before && (g !in groups || g in todo) :: components[g] == before[g]
    {
      var g :| g in todo;
      if groups[g].None? {
        return components, false;
      }
      components := components[g := ComponentInfo(g, groups[g].value, FullName(cluster, role, g))];
      todo := todo - {g};
    }
    populated := true;
  }

  /** The replica total of a group, summed over all components that carry its name: since every
      component is stored under its own group's name, it is that group's count, or 0. */
  method GetReplicas(components: Components, groupName: string) returns (total: int)
    ensures (forall g | g in components :: components[g].groupName == g) ==>
              total == if groupName in components then components[groupName].replicas else 0
  {
    total := 0;
    var todo := components.Keys;
    while todo != {}
      invariant todo <= components.Keys
      invariant (forall g | g in components :: components[g].groupName == g) ==>
                  total == if groupName in components && groupName !in todo then components[groupName].replicas else 0
    {
      var g :| g in todo;
      if components[g].groupName == groupName {
        total := total + components[g].replicas;
      }
      todo := todo - {g};
    }
  }

  // ----- The journal quorum -----

  /** The endpoints of the JournalNode groups, each exactly once. */
  ghost predicate IsQuorum(endpoints: seq<string>, cluster: string, groups: set<string>)
  {
    && |endpoints| == |groups| && NoDuplicates(endpoints)
    && forall e :: e in endpoints <==> exists g | g in groups :: e == cluster + "-journalnode-" + g + ":8485"
  }

  function Endpoint(cluster: string, group: string): string
  {
    FullName(cluster, JOURNAL_NODE, group) + JOURNAL_PORT_SUFFIX
  }

  lemma EndpointText(cluster: string, g: string)
    ensures Endpoint(cluster, g) == cluster + "-journalnode-" + g + ":8485"
  {
    assert "-" + JOURNAL_NODE + "-" == "-journalnode-";
    assert cluster + "-" + JOURNAL_NODE + "-" == cluster + ("-" + JOURNAL_NODE + "-");
  }

  lemma EndpointInjective(cluster: string, g: string, h: string)
    requires Endpoint(cluster, g) == Endpoint(cluster, h)
    ensures g == h
  {
    var prefix := cluster + "-" + JOURNAL_NODE + "-";
    var n := |Endpoint(cluster, g)| - |JOURNAL_PORT_SUFFIX|;
    assert Endpoint(cluster, g)[|prefix|..n] == g;
    assert Endpoint(cluster, h)[|prefix|..n] == h;
  }

  method GetJournalNodeServiceNames(journalNode: Components) returns (names: seq<string>, ghost order: seq<string>)
    ensures |order| == |journalNode| == |names| && NoDuplicates(order) && (forall g :: g in order <==> g in journalNode)
    ensures forall i | 0 <= i < |names| :: names[i] == journalNode[order[i]].fullName
  {
    names, order := [], [];
    var todo := journalNode.Keys;
    while todo != {}
      invariant todo <= journalNode.Keys && |order| + |todo| == |journalNode.Keys|
      invariant |names| == |order| && NoDuplicates(order) && forall g :: g in order <==> g in journalNode && g !in todo
      invariant forall i | 0 <= i < |names| :: order[i] in journalNode && names[i] == journalNode[order[i]].fullName
    {
      var g :| g in todo;
      names := names + [journalNode[g].fullName];
      order := order + [g];
      todo := todo - {g};
    }
  }

  method GetJournalNodeServicesForSharedEdits(journalNode: Components, ghost cluster: string, ghost groups: Groups)
      returns (services: seq<string>)
    requires IsRole(journalNode, cluster, JOURNAL_NODE, groups)
    ensures IsQuorum(services, cluster, groups.Keys)
    ensures forall e :: e in services <==> exists g | g in groups :: e == cluster + "-journalnode-" + g + ":8485"
  {
    var names, order := GetJournalNodeServiceNames(journalNode);
    services := [];
    for i := 0 to |names|
      invariant |services| == i && forall j | 0 <= j < i :: services[j] == Endpoint(cluster, order[j])
    {
      services := services + [names[i] + JOURNAL_PORT_SUFFIX];
    }
    QuorumFromOrder(services, cluster, groups.Keys, order);
  }

  lemma QuorumFromOrder(services: seq<string>, cluster: string, groups: set<string>, order: seq<string>)
    requires |services| == |order| == |groups| && NoDuplicates(order) && forall g :: g in order <==> g in groups
    requires forall j | 0 <= j < |order| :: services[j] == Endpoint(cluster, order[j])
    ensures IsQuorum(services, cluster, groups)
  {
    forall i, j | 0 <= i < j < |services| ensures services[i] != services[j] {
      if Endpoint(cluster, order[i]) == Endpoint(cluster, order[j]) {
        EndpointInjective(cluster, order[i], order[j]);
      }
    }
    forall g | g in groups ensures cluster + "-journalnode-" + g + ":8485" in services {
      var j :| 0 <= j < |order| && order[j] == g;
      EndpointText(cluster, g);
      assert services[j] == Endpoint(cluster, g);
    }
    forall e | e in services ensures exists g | g in groups :: e == cluster + "-journalnode-" + g + ":8485" {
      var j :| 0 <= j < |services| && services[j] == e;
      EndpointText(cluster, order[j]);
      assert order[j] in groups;
    }
  }

  /** Every role's configuration names the same quorum, whatever order the groups were visited in. */
  lemma QuorumsAgree(a: seq<string>, b: seq<string>, cluster: string, groups: set<string>)
    requires IsQuorum(a, cluster, groups) && IsQuorum(b, cluster, groups)
    ensures multiset(a) == multiset(b)
  {
    forall e ensures multiset(a)[e] == multiset(b)[e] {
      OccursOnce(a, e);
      OccursOnce(b, e);
    }
  }

  // ----- The shared-edits URL -----

  const SCHEME := "qjournal://"

  function CreateJournalUrl(services: seq<string>, instanceName: string): (url: string)
  {
    Sprintf(SCHEME + "%s/%s", [Str(Join(services, ";")), Str(instanceName)])
  }

  lemma JournalUrlText(services: seq<string>, instanceName: string)
    ensures CreateJournalUrl(services, instanceName) == "qjournal://" + Join(services, ";") + "/" + instanceName
  {
    var joined := Join(services, ";");
    assert '%' !in SCHEME;
    assert "%s/%s" == "%s" + ("/" + ("%s" + ""));
    assert [Str(joined), Str(instanceName)] == [Str(joined)] + ([Str(instanceName)] + []);
    SprintfPlain(SCHEME, "%s/%s", [Str(joined), Str(instanceName)]);
    SprintfStr("/" + ("%s" + ""), joined, [Str(instanceName)] + []);
    SprintfPlain("/", "%s" + "", [Str(instanceName)] + []);
    SprintfStr("", instanceName, []);
  }

  /** What a reader of the URL finds: the endpoints between `//` and the next slash, and the journal's name. */
  function ParseJournalUrl(url: string): (r: (seq<string>, string))
    requires "qjournal://" <= url
  {
    var rest := url[|"qjournal://"|..];
    var i := IndexOf(rest, '/');
    (Split(rest[..i], ';'), if i < |rest| then rest[i + 1..] else "")
  }

  lemma {:induction false} JoinLacks(parts: seq<string>, sep: string, c: char)
    requires c !in sep && forall p | p in parts :: c !in p
    ensures c !in Join(parts, sep)
  {
    if |parts| > 1 {
      JoinLacks(parts[1..], sep, c);
    }
  }

  /** The URL parses back to exactly the endpoints it was made from, if and only if there is one. */
  lemma JournalUrlParsesIff(services: seq<string>, instanceName: string)
    requires forall s | s in services :: ';' !in s && '/' !in s
    ensures var url := CreateJournalUrl(services, instanceName);
            && "qjournal://" <= url && ParseJournalUrl(url).1 == instanceName
            && (ParseJournalUrl(url).0 == services <==> services != [])
  {
    JournalUrlText(services, instanceName);
    var url := CreateJournalUrl(services, instanceName);
    var joined := Join(services, ";");
    assert url[|SCHEME|..] == joined + "/" + instanceName;
    JoinLacks(services, ";", '/');
    IndexOfAppend(joined, '/', instanceName);
    assert (joined + "/" + instanceName)[..|joined|] == joined;
    assert (joined + "/" + instanceName)[|joined| + 1..] == instanceName;
    if services != [] {
      SplitJoin(services, ';');
    }
  }

  /** For names free of `;` and `/`, the shared-edits value of a cluster with JournalNodes reads
      back as one `:8485` endpoint for each JournalNode group, with no repetition. */
  lemma SharedEditsNameQuorum(cluster: string, instanceName: string, groups: set<string>, services: seq<string>)
    requires IsQuorum(services, cluster, groups) && groups != {}
    requires ';' !in cluster && '/' !in cluster && forall g | g in groups :: ';' !in g && '/' !in g
    ensures var url := CreateJournalUrl(services, instanceName);
            "qjournal://" <= url && IsQuorum(ParseJournalUrl(url).0, cluster, groups) && ParseJournalUrl(url).1 == instanceName
  {
    forall s | s in services ensures ';' !in s && '/' !in s {
      var g :| g in groups && s == cluster + "-journalnode-" + g + ":8485";
      assert ';' !in "-journalnode-" && '/' !in "-journalnode-" && ';' !in ":8485" && '/' !in ":8485";
    }
    JournalUrlParsesIff(services, instanceName);
  }
}
