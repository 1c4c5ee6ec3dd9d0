/** The hdfs-site.xml of every role group, from the cluster's specification. */
module RoleDocuments {
  import opened Text
  import opened PodNames
  import opened XmlProperties
  import opened ClusterComponents
  import opened HdfsKeys
  import opened Templates
  import opened HdfsSite
  import opened HdfsSiteProperties
  import opened HdfsSiteTexts
  import opened WaitForNameNodes

  /** A role that is nil is one without groups. */
  datatype ClusterSpec = ClusterSpec(
    name: string, nameSpace: string, replication: int, config: ClusterConfig,
    nameNodes: Groups, dataNodes: Groups, journalNodes: Groups)
  {
    /** The names are made of DNS labels, which hold no percent sign and no comma. */
    predicate PlainNames() {
      Plain(name) && Plain(nameSpace) && Plain(config.clusterDomain) && forall g | g in nameNodes :: Plain(g)
    }

    /** Every group of every role has a replica count. */
    predicate Counted() {
      AllCounted(nameNodes) && AllCounted(dataNodes) && AllCounted(journalNodes)
    }
  }

  /** Each of the groups bears the name of a NameNode group with a usable count. */
  predicate Served(spec: ClusterSpec, groups: set<string>)
  {
    forall g | g in groups :: g in spec.nameNodes && spec.nameNodes[g].Some? && spec.nameNodes[g].value >= 0
  }

  /** What the generators of a group are given, with the NameNode count each role looks up. */
  function SettingsFor(spec: ClusterSpec, nameNode: Components, group: string, replicas: int): Settings
  {
    Settings(spec.name, group, replicas, spec.nameSpace, spec.config.clusterDomain, spec.replication, spec.config, nameNode)
  }

  /** `d` is the hdfs-site.xml of a group, for some order of the JournalNode quorum. */
  ghost predicate IsDocument(spec: ClusterSpec, nameNode: Components, group: string, d: Document)
  {
    && Served(spec, {group})
    && var s := SettingsFor(spec, nameNode, group, spec.nameNodes[group].value);
       s.Usable() && exists services :: IsQuorum(services, spec.name, spec.journalNodes.Keys) && d == HdfsSiteDocument(s, services)
  }

  lemma FullNamesArePlain(spec: ClusterSpec, nameNode: Components, group: string)
    requires spec.PlainNames() && IsRole(nameNode, spec.name, NAME_NODE, spec.nameNodes) && group in nameNode
    ensures Plain(nameNode[group].fullName)
  {
  }

  lemma SettingsDocument(spec: ClusterSpec, nameNode: Components, group: string, services: seq<string>)
    requires spec.PlainNames() && IsRole(nameNode, spec.name, NAME_NODE, spec.nameNodes) && Served(spec, {group})
    requires IsQuorum(services, spec.name, spec.journalNodes.Keys)
    ensures var s := SettingsFor(spec, nameNode, group, spec.nameNodes[group].value);
            s.Usable() && DnsNames(s) && IsDocument(spec, nameNode, group, HdfsSiteDocument(s, services))
  {
    assert group in {group};
    FullNamesArePlain(spec, nameNode, group);
  }

  /** The NameNode role passes its group's own count. */
  method MakeNameNodeSite(spec: ClusterSpec, nameNode: Components, journalNode: Components, group: string) returns (d: Outcome<Document>)
    requires spec.PlainNames()
    requires IsRole(nameNode, spec.name, NAME_NODE, spec.nameNodes)
    requires IsRole(journalNode, spec.name, JOURNAL_NODE, spec.journalNodes)
    requires group in spec.nameNodes
    ensures d.Returned? <==> Served(spec, {group})
    ensures d.Returned? ==> IsDocument(spec, nameNode, group, d.value)
  {
    var services := GetJournalNodeServicesForSharedEdits(journalNode, spec.name, spec.journalNodes);
    if Served(spec, {group}) {
      SettingsDocument(spec, nameNode, group, services);
    }
    d := MakeHdfsSiteData(SettingsFor(spec, nameNode, group, spec.nameNodes[group].value), services);
  }

  /** The DataNode role sums the NameNode components of its group's name. */
  method MakeDataNodeSite(spec: ClusterSpec, nameNode: Components, journalNode: Components, group: string,
                          dataNodeConfig: map<string, string>) returns (d: Outcome<Document>)
    requires spec.PlainNames()
    requires IsRole(nameNode, spec.name, NAME_NODE, spec.nameNodes)
    requires IsRole(journalNode, spec.name, JOURNAL_NODE, spec.journalNodes)
    ensures d.Returned? <==> Served(spec, {group})
    ensures d.Returned? ==> IsDocument(spec, nameNode, group, d.value)
  {
    var services := GetJournalNodeServicesForSharedEdits(journalNode, spec.name, spec.journalNodes);
    if Served(spec, {group}) {
      SettingsDocument(spec, nameNode, group, services);
    }
    var replicas := GetReplicas(nameNode, group);
    d := MakeDataNodeHdfsSiteData(SettingsFor(spec, nameNode, group, replicas), dataNodeConfig, services);
  }

  /** The JournalNode role reads the NameNode component of its group's name; a missing one panics. */
  method MakeJournalNodeSite(spec: ClusterSpec, nameNode: Components, journalNode: Components, group: string) returns (d: Outcome<Document>)
    requires spec.PlainNames()
    requires IsRole(nameNode, spec.name, NAME_NODE, spec.nameNodes)
    requires IsRole(journalNode, spec.name, JOURNAL_NODE, spec.journalNodes)
    ensures d.Returned? <==> Served(spec, {group})
    ensures d.Returned? ==> IsDocument(spec, nameNode, group, d.value)
  {
    if group !in nameNode {
      return Panicked;
    }
    var services := GetJournalNodeServicesForSharedEdits(journalNode, spec.name, spec.journalNodes);
    if Served(spec, {group}) {
      SettingsDocument(spec, nameNode, group, services);
    }
    d := MakeHdfsSiteData(SettingsFor(spec, nameNode, group, nameNode[group].replicas), services);
  }

  /** The document of a group of a role. Whatever the role, it needs a NameNode group of that name. */
  method MakeRoleSite(spec: ClusterSpec, nameNode: Components, journalNode: Components, role: Role, group: string,
                      dataNodeConfig: map<string, string>) returns (d: Outcome<Document>)
    requires spec.PlainNames()
    requires IsRole(nameNode, spec.name, NAME_NODE, spec.nameNodes)
    requires IsRole(journalNode, spec.name, JOURNAL_NODE, spec.journalNodes)
    requires role.NameNode? ==> group in spec.nameNodes
    ensures d.Returned? <==> Served(spec, {group})
    ensures d.Returned? ==> IsDocument(spec, nameNode, group, d.value)
  {
    match role {
      case NameNode => d := MakeNameNodeSite(spec, nameNode, journalNode, group);
      case DataNode => d := MakeDataNodeSite(spec, nameNode, journalNode, group, dataNodeConfig);
      case JournalNode => d := MakeJournalNodeSite(spec, nameNode, journalNode, group);
    }
  }

  /** Every document is the one of the group it is stored under. */
  ghost predicate AreDocuments(spec: ClusterSpec, nameNode: Components, documents: map<string, Document>)
  {
    forall g | g in documents :: IsDocument(spec, nameNode, g, documents[g])
  }

  /** The documents made while the groups in `todo` are still to be done. */
  ghost predicate AreMade(spec: ClusterSpec, nameNode: Components, groups: set<string>, todo: set<string>, made: map<string, Document>)
  {
    todo <= groups && made.Keys == groups - todo && Served(spec, made.Keys) && AreDocuments(spec, nameNode, made)
  }

  lemma OneMoreMade(spec: ClusterSpec, nameNode: Components, groups: set<string>, todo: set<string>, made: map<string, Document>,
                    g: string, d: Document)
    requires AreMade(spec, nameNode, groups, todo, made) && g in todo && IsDocument(spec, nameNode, g, d)
    ensures AreMade(spec, nameNode, groups, todo - {g}, made[g := d])
  {
    assert g in {g};
  }

  /** The documents of all groups of a role. */
  method MakeRoleSites(spec: ClusterSpec, nameNode: Components, journalNode: Components, role: Role, groups: set<string>,
                       dataNodeConfig: map<string, string>) returns (documents: Outcome<map<string, Document>>)
    requires spec.PlainNames()
    requires IsRole(nameNode, spec.name, NAME_NODE, spec.nameNodes)
    requires IsRole(journalNode, spec.name, JOURNAL_NODE, spec.journalNodes)
    requires role.NameNode? ==> groups <= spec.nameNodes.Keys
    ensures documents.Returned? <==> Served(spec, groups)
    ensures documents.Returned? ==> documents.value.Keys == groups && AreDocuments(spec, nameNode, documents.value)
  {
    var made: map<string, Document> := map[];
    var todo := groups;
    while todo != {}
      invariant AreMade(spec, nameNode, groups, todo, made)
    {
      var g :| g in todo;
      var d := MakeRoleSite(spec, nameNode, journalNode, role, g, dataNodeConfig);
      if d.Panicked? {
        return Panicked;
      }
      OneMoreMade(spec, nameNode, groups, todo, made, g, d.value);
      made := made[g := d.value];
      todo := todo - {g};
    }
    documents := Returned(made);
  }

  datatype Sites = Sites(nameNodes: map<string, Document>, dataNodes: map<string, Document>, journalNodes: map<string, Document>)

  /** One document for each group of each role, the group's own. */
  ghost predicate AreSites(spec: ClusterSpec, nameNode: Components, sites: Sites)
  {
    && sites.nameNodes.Keys == spec.nameNodes.Keys && AreDocuments(spec, nameNode, sites.nameNodes)
    && sites.dataNodes.Keys == spec.dataNodes.Keys && AreDocuments(spec, nameNode, sites.dataNodes)
    && sites.journalNodes.Keys == spec.journalNodes.Keys && AreDocuments(spec, nameNode, sites.journalNodes)
  }

  method MakeSites(spec: ClusterSpec, nameNode: Components, journalNode: Components, dataNodeConfig: map<string, string>)
      returns (sites: Outcome<Sites>)
    requires spec.PlainNames()
    requires IsRole(nameNode, spec.name, NAME_NODE, spec.nameNodes)
    requires IsRole(journalNode, spec.name, JOURNAL_NODE, spec.journalNodes)
    ensures sites.Returned? <==>
            Served(spec, spec.journalNodes.Keys) && Served(spec, spec.nameNodes.Keys) && Served(spec, spec.dataNodes.Keys)
    ensures sites.Returned? ==> AreSites(spec, nameNode, sites.value)
  {
    var nameNodes := MakeRoleSites(spec, nameNode, journalNode, NameNode, spec.nameNodes.Keys, dataNodeConfig);
    if nameNodes.Panicked? {
      return Panicked;
    }
    var journalNodes := MakeRoleSites(spec, nameNode, journalNode, JournalNode, spec.journalNodes.Keys, dataNodeConfig);
    if journalNodes.Panicked? {
      return Panicked;
    }
    var dataNodes := MakeRoleSites(spec, nameNode, journalNode, DataNode, spec.dataNodes.Keys, dataNodeConfig);
    if dataNodes.Panicked? {
      return Panicked;
    }
    sites := Returned(Sites(nameNodes.value, dataNodes.value, journalNodes.value));
  }

  method Populate(spec: ClusterSpec) returns (populated: bool, nameNode: Components, journalNode: Components)
    ensures populated <==> spec.Counted()
    ensures populated ==> nameNode == RoleComponents(spec.name, NAME_NODE, spec.nameNodes)
    ensures populated ==> journalNode == RoleComponents(spec.name, JOURNAL_NODE, spec.journalNodes)
  {
    var info := new ClusterComponentsInfo();
    var done := info.PopulateClusterComponents(spec.name, Some(spec.nameNodes), Some(spec.dataNodes), Some(spec.journalNodes));
    populated, nameNode, journalNode := done.Returned?, info.nameNode, info.journalNode;
  }

  lemma ServedIff(spec: ClusterSpec)
    requires spec.Counted()
    ensures Served(spec, spec.journalNodes.Keys) && Served(spec, spec.nameNodes.Keys) && Served(spec, spec.dataNodes.Keys)
            <==> (forall g | g in spec.nameNodes :: spec.nameNodes[g].value >= 0)
                 && spec.dataNodes.Keys <= spec.nameNodes.Keys && spec.journalNodes.Keys <= spec.nameNodes.Keys
  {
  }

  /** From the specification to all documents: every role's document is generated if and only if
      every group has a count, no NameNode group a negative one, and each DataNode and JournalNode
      group bears the name of a NameNode group. */
  method MakeAllSites(spec: ClusterSpec, dataNodeConfig: map<string, string>) returns (sites: Outcome<Sites>)
    requires spec.PlainNames()
    ensures sites.Returned? <==>
            && spec.Counted() && (forall g | g in spec.nameNodes :: spec.nameNodes[g].value >= 0)
            && spec.dataNodes.Keys <= spec.nameNodes.Keys && spec.journalNodes.Keys <= spec.nameNodes.Keys
    ensures sites.Returned? ==> AreSites(spec, RoleComponents(spec.name, NAME_NODE, spec.nameNodes), sites.value)
  {
    var populated, nameNode, journalNode := Populate(spec);
    if !populated {
      return Panicked;
    }
    ServedIff(spec);
    sites := MakeSites(spec, nameNode, journalNode, dataNodeConfig);
  }

  // ----- The documents as text, from the specification -----

  lemma NameNodeIdText(cluster: string, group: string, i: nat)
    ensures FullName(cluster, NAME_NODE, group) == cluster + "-namenode-" + group
    ensures NameNodeId(cluster, group, i) == cluster + "-namenode-" + group + "-" + Itoa(i)
  {
    PodNameText(FullName(cluster, NAME_NODE, group), i);
    assert "-" + NAME_NODE + "-" == "-namenode-";
    assert cluster + "-" + NAME_NODE + "-" == cluster + ("-" + NAME_NODE + "-");
  }

  lemma DocumentSettings(spec: ClusterSpec, group: string, d: Document) returns (s: Settings, services: seq<string>)
    requires spec.PlainNames() && spec.Counted()
    requires IsDocument(spec, RoleComponents(spec.name, NAME_NODE, spec.nameNodes), group, d)
    ensures group in spec.nameNodes && spec.nameNodes[group].value >= 0
    ensures s == SettingsFor(spec, RoleComponents(spec.name, NAME_NODE, spec.nameNodes), group, spec.nameNodes[group].value)
    ensures s.Usable() && DnsNames(s) && d == HdfsSiteDocument(s, services)
    ensures IsQuorum(services, spec.name, spec.journalNodes.Keys)
  {
    var nameNode := RoleComponents(spec.name, NAME_NODE, spec.nameNodes);
    assert group in {group};
    s := SettingsFor(spec, nameNode, group, spec.nameNodes[group].value);
    services :| IsQuorum(services, spec.name, spec.journalNodes.Keys) && d == HdfsSiteDocument(s, services);
    SettingsDocument(spec, nameNode, group, services);
  }

  /** What the document of any role's group says of NameNode `i` of that group, from the specification alone. */
  lemma NameNodeTexts(spec: ClusterSpec, group: string, d: Document, i: nat)
    requires spec.PlainNames() && spec.Counted()
    requires IsDocument(spec, RoleComponents(spec.name, NAME_NODE, spec.nameNodes), group, d)
    requires i < Count(spec.nameNodes, group)
    ensures var id := spec.name + "-namenode-" + group + "-" + Itoa(i);
            var host := id + "." + (spec.name + "-namenode-" + group) + "." + spec.nameSpace + ".svc." + spec.config.clusterDomain;
            && Says(d, "dfs.namenode.rpc-address." + spec.name + "." + id, host + ":8020")
            && (spec.config.tls ==> Says(d, "dfs.namenode.https-address." + spec.name + "." + id, host + ":9871"))
            && (!spec.config.tls ==> Says(d, "dfs.namenode.http-address." + spec.name + "." + id, host + ":9870"))
            && Says(d, "dfs.namenode.name.dir." + spec.name + "." + id, "/kubedoop/data/namenode")
  {
    var s, services := DocumentSettings(spec, group, d);
    NameNodeIdText(spec.name, group, i);
    var ids := PodNameList(s.StatefulSet(), s.replicas);
    assert ids[i] == NameNodeId(spec.name, group, i);
    assert ids[i] in ids;
    AddressTexts(s, services, ids[i]);
  }

  /** And what it says of the cluster. */
  lemma ClusterTexts(spec: ClusterSpec, group: string, d: Document)
    requires spec.PlainNames() && spec.Counted()
    requires IsDocument(spec, RoleComponents(spec.name, NAME_NODE, spec.nameNodes), group, d)
    ensures Says(d, "dfs.nameservices", spec.name)
    ensures Says(d, "dfs.client.failover.proxy.provider." + spec.name,
                 "org.apache.hadoop.hdfs.server.namenode.ha.ConfiguredFailoverProxyProvider")
    ensures Says(d, "dfs.replication", FormatInt(spec.replication))
    ensures Says(d, "dfs.ha.namenodes." + spec.name,
                 Join(PodNameList(spec.name + "-namenode-" + group, Count(spec.nameNodes, group)), ","))
    ensures exists services :: IsQuorum(services, spec.name, spec.journalNodes.Keys)
              && Says(d, "dfs.namenode.shared.edits.dir", "qjournal://" + Join(services, ";") + "/" + spec.name)
  {
    var s, services := DocumentSettings(spec, group, d);
    NameNodeIdText(spec.name, group, 0);
    ServiceTexts(s, services);
    StorageTexts(s, services);
  }

  // ----- What the DataNode waits for -----

  lemma OwnAddressIsForOwnGroup(s: Settings, services: seq<string>, id: string)
    requires s.Usable() && DnsNames(s)
    ensures KeyFor(RPC_ADDRESS, s.instanceName, id) in Denote(HdfsSiteDocument(s, services))
            <==> id in PodNameList(s.StatefulSet(), s.replicas)
  {
    var d, key := HdfsSiteDocument(s, services), KeyFor(RPC_ADDRESS, s.instanceName, id);
    DocumentPart(s, services);
    DenoteKeys(d);
    if id in PodNameList(s.StatefulSet(), s.replicas) {
      AddressesPresent(s, services, id);
      DenoteMember(d, Property(key, HostOf(id, s, s.clusterDomain) + ":8020"));
    } else if key in Denote(d) {
      var i :| 0 <= i < |d| && Names(d)[i] == key;
      RpcHasOwner(s, services, d[i]);
      var owner :| owner in PodNameList(s.StatefulSet(), s.replicas) && key == KeyFor(RPC_ADDRESS, s.instanceName, owner);
      KeyForInjective(RPC_ADDRESS, s.instanceName, id, owner);
    }
  }

  /** The wait script of a DataNode probes the NameNodes of all groups, but the document it probes
      with has addresses for one group only: every probed id has an address if and only if no
      other NameNode group has pods. */
  lemma ProbedIdsHaveAddressesIff(s: Settings, services: seq<string>, cluster: string, groups: Groups, group: string, ids: seq<string>)
    requires s.Usable() && DnsNames(s) && group in groups && Lists(cluster, groups, groups.Keys, ids)
    requires s.StatefulSet() == FullName(cluster, NAME_NODE, group) && s.replicas == Count(groups, group)
    ensures (forall id | id in ids :: KeyFor(RPC_ADDRESS, s.instanceName, id) in Denote(HdfsSiteDocument(s, services)))
            <==> (forall g | g in groups && g != group :: Count(groups, g) == 0)
  {
    var own := PodNameList(s.StatefulSet(), s.replicas);
    forall id ensures KeyFor(RPC_ADDRESS, s.instanceName, id) in Denote(HdfsSiteDocument(s, services)) <==> id in own {
      OwnAddressIsForOwnGroup(s, services, id);
    }
    if forall g | g in groups && g != group :: Count(groups, g) == 0 {
      forall id | id in ids ensures id in own {
        var g, i: nat :| g in groups.Keys && i < Count(groups, g) && id == NameNodeId(cluster, g, i);
        assert own[i] == id;
      }
    } else {
      var g :| g in groups && g != group && Count(groups, g) != 0;
      ForeignIdIsListed(cluster, groups, group, g, ids);
    }
  }

  lemma ForeignIdIsListed(cluster: string, groups: Groups, group: string, g: string, ids: seq<string>)
    requires group in groups && g in groups && g != group && Count(groups, g) > 0 && Lists(cluster, groups, groups.Keys, ids)
    ensures NameNodeId(cluster, g, 0) in ids
    ensures NameNodeId(cluster, g, 0) !in PodNameList(FullName(cluster, NAME_NODE, group), Count(groups, group))
  {
    var id := NameNodeId(cluster, g, 0);
    var own := PodNameList(FullName(cluster, NAME_NODE, group), Count(groups, group));
    assert IsId(cluster, groups, groups.Keys, id);
    if id in own {
      var i :| 0 <= i < |own| && own[i] == id;
      NameNodeIdInjective(cluster, g, 0, group, i);
    }
  }

  /** A probe needs an address: for an id without one it prints no service state. */
  ghost predicate NeedsAddress(d: Document, cluster: string, ids: seq<string>, samples: Samples)
  {
    forall n: nat, i: nat | i < |ids| && KeyFor(RPC_ADDRESS, cluster, ids[i]) !in Denote(d) :: !Ready(samples(n, i))
  }

  ghost predicate AnswersAddressed(d: Document, cluster: string, ids: seq<string>, samples: Samples)
  {
    forall n: nat, i: nat | i < |ids| && KeyFor(RPC_ADDRESS, cluster, ids[i]) in Denote(d) :: Ready(samples(n, i))
  }

  predicate AllAddressed(d: Document, cluster: string, ids: seq<string>)
  {
    forall id | id in ids :: KeyFor(RPC_ADDRESS, cluster, id) in Denote(d)
  }

  lemma AddressesDecide(d: Document, cluster: string, ids: seq<string>, samples: Samples)
    requires NeedsAddress(d, cluster, ids, samples)
    ensures !AllAddressed(d, cluster, ids) ==> StopRound(samples, |ids|, 0) == ROUNDS
    ensures AllAddressed(d, cluster, ids) && AnswersAddressed(d, cluster, ids, samples) ==> StopRound(samples, |ids|, 0) == 0
  {
    if !AllAddressed(d, cluster, ids) {
      var id :| id in ids && KeyFor(RPC_ADDRESS, cluster, id) !in Denote(d);
      var down :| 0 <= down < |ids| && ids[down] == id;
      SilentNameNode(|ids|, down, samples);
    } else if AnswersAddressed(d, cluster, ids, samples) {
      assert ReadyRound(samples, |ids|, 0);
    }
  }

  method WaitAddressed(d: Document, cluster: string, ids: seq<string>, samples: Samples)
      returns (exitCode: int, ready: bool, probes: nat)
    requires NeedsAddress(d, cluster, ids, samples)
    ensures exitCode == 0
    ensures !AllAddressed(d, cluster, ids) ==> !ready && probes == 12 * |ids|
    ensures AnswersAddressed(d, cluster, ids, samples) ==> (ready <==> AllAddressed(d, cluster, ids))
  {
    var n;
    exitCode, ready, n, probes := Rounds(|ids|, samples);
    AddressesDecide(d, cluster, ids, samples);
  }

  predicate OnlyGroup(groups: Groups, group: string)
  {
    forall g | g in groups && g != group :: Count(groups, g) == 0
  }

  lemma DocumentAddressesIff(spec: ClusterSpec, group: string, d: Document, ids: seq<string>)
    requires spec.PlainNames() && spec.Counted() && Lists(spec.name, spec.nameNodes, spec.nameNodes.Keys, ids)
    requires IsDocument(spec, RoleComponents(spec.name, NAME_NODE, spec.nameNodes), group, d)
    ensures AllAddressed(d, spec.name, ids) <==> OnlyGroup(spec.nameNodes, group)
  {
    var s, services := DocumentSettings(spec, group, d);
    ProbedIdsHaveAddressesIff(s, services, spec.name, spec.nameNodes, group, ids);
  }

  /** The wait script in a pod of a DataNode group, with that group's document. If another NameNode
      group has pods, it makes all its rounds in vain and still exits with 0. If NameNodes with an
      address do answer, it gets ready if and only if no other NameNode group has pods. */
  method WaitAsDataNode(spec: ClusterSpec, group: string, d: Document, ids: seq<string>, samples: Samples)
      returns (exitCode: int, ready: bool, probes: nat)
    requires spec.PlainNames() && spec.Counted() && Lists(spec.name, spec.nameNodes, spec.nameNodes.Keys, ids)
    requires IsDocument(spec, RoleComponents(spec.name, NAME_NODE, spec.nameNodes), group, d)
    requires NeedsAddress(d, spec.name, ids, samples)
    ensures exitCode == 0
    ensures !OnlyGroup(spec.nameNodes, group) ==> !ready && probes == 12 * |ids|
    ensures AnswersAddressed(d, spec.name, ids, samples) ==> (ready <==> OnlyGroup(spec.nameNodes, group))
  {
    DocumentAddressesIff(spec, group, d, ids);
    exitCode, ready, probes := WaitAddressed(d, spec.name, ids, samples);
  }
}
