/** The discovery ConfigMap's hdfs-site.xml: the list of all NameNode ids around their addresses. */
module DiscoverySite {
  import opened Text
  import opened Sequences
  import opened PodNames
  import opened XmlProperties
  import opened XmlDocuments
  import opened HdfsKeys
  import opened Templates
  import opened HdfsSite
  import opened HdfsSiteProperties
  import opened HdfsSiteTexts
  import opened Discovery
  import opened DiscoveryProperties

  function CommonHdfsSiteXml(instance: string): seq<Property>
  {
    [Property(NAMESERVICES, instance), Property(PROXY_PROVIDER + instance, PROVIDER)]
  }

  function MakeDiscoveryHosts(instance: string, pods: seq<string>): Property
  {
    Property(HA_NAMENODES + instance, Join(pods, ","))
  }

  function SecurityDiscoveryFor(config: ClusterConfig): seq<Property>
  {
    if config.kerberos
    then [Property(KEYTAB_RENEWAL, "true"), Property(TRANSFER_PROTECTION, "privacy"), Property(ENCRYPT_TRANSFER, "true")]
    else []
  }

  /** The whole document. */
  function DiscoveryDocument(instance: string, pods: seq<string>, connections: seq<Property>, config: ClusterConfig): Document
  {
    CommonHdfsSiteXml(instance) + [MakeDiscoveryHosts(instance, pods)] + connections + SecurityDiscoveryFor(config)
  }

  // ----- The names of the addresses -----

  lemma FamilyText(suffix: string)
    ensures "dfs.namenode." + ("rpc" + ("-address." + suffix)) == RPC_ADDRESS + suffix
    ensures "dfs.namenode." + ("http" + ("-address." + suffix)) == HTTP_ADDRESS + suffix
    ensures "dfs.namenode." + ("https" + ("-address." + suffix)) == HTTPS_ADDRESS + suffix
  {
  }

  /** Discovery names an address as the roles' own documents do. */
  lemma EntryNameIsKey(instance: string, pod: string, config: ClusterConfig)
    ensures EntryName(instance, pod, "rpc") == KeyFor(RPC_ADDRESS, instance, pod)
    ensures EntryName(instance, pod, WebPort(config.tls)) == KeyFor(HttpFamily(config), instance, pod)
  {
    EntryNameText(instance, pod, "rpc");
    EntryNameText(instance, pod, WebPort(config.tls));
    FamilyText(instance + ("." + pod));
  }

  // ----- No name twice -----

  /** One property for each pod, under the pod's key. */
  ghost predicate OfFamily(ps: seq<Property>, family: string, instance: string, pods: seq<string>)
  {
    |ps| == |pods| && forall i | 0 <= i < |ps| :: ps[i].name == KeyFor(family, instance, pods[i])
  }

  lemma EntriesPart(ps: seq<Property>, family: string, instance: string, pods: seq<string>)
    requires family in {HTTP_ADDRESS, HTTPS_ADDRESS, RPC_ADDRESS} && OfFamily(ps, family, instance, pods) && NoDuplicates(pods)
    ensures family == RPC_ADDRESS ==> Part(ps, 20, 21)
    ensures family != RPC_ADDRESS ==> Part(ps, 19, 20)
  {
    forall i | 0 <= i < |ps| ensures KindOf(ps[i].name) == if family == RPC_ADDRESS then RpcAddress else HttpAddress {
      AddressKinds(instance + ("." + pods[i]));
    }
    forall i, j | 0 <= i < j < |ps| ensures Names(ps)[i] != Names(ps)[j] {
      if Names(ps)[i] == Names(ps)[j] {
        KeyForInjective(family, instance, pods[i], pods[j]);
      }
    }
  }

  lemma FrontPart(instance: string, pods: seq<string>)
    ensures Part(CommonHdfsSiteXml(instance) + [MakeDiscoveryHosts(instance, pods)], 15, 19)
  {
    GeneratedKinds();
    FamilyKinds(instance);
    ConsecutivePart(CommonHdfsSiteXml(instance), 15);
    SinglePart(MakeDiscoveryHosts(instance, pods));
    JoinParts(CommonHdfsSiteXml(instance), [MakeDiscoveryHosts(instance, pods)], 15, 18, 19);
  }

  lemma SecurityDiscoveryPart(config: ClusterConfig)
    ensures Part(SecurityDiscoveryFor(config), 0, 15)
  {
    SecurityKinds();
    TransferKinds();
  }

  /** Two parts have no name in common, in whatever order they stand. */
  lemma JoinReversed(a: seq<Property>, b: seq<Property>, lo: nat, mid: nat, hi: nat)
    requires Part(a, lo, mid) && Part(b, mid, hi)
    ensures NoDuplicates(Names(b + a))
  {
    var ps := b + a;
    forall i, j | 0 <= i < j < |ps| ensures Names(ps)[i] != Names(ps)[j] {
      if j < |b| {
        assert Names(b)[i] != Names(b)[j];
      } else if i >= |b| {
        assert Names(a)[i - |b|] != Names(a)[j - |b|];
      } else {
        assert Rank(KindOf(a[j - |b|].name)) < mid <= Rank(KindOf(b[i].name));
      }
    }
  }

  /** The blocks of a result: the web entries, and the RPC entries if their pass succeeded. */
  ghost predicate AreBlocks(web: seq<Property>, rpc: seq<Property>, rpcOk: bool, instance: string, pods: seq<string>, config: ClusterConfig)
  {
    && OfFamily(web, HttpFamily(config), instance, pods)
    && (if rpcOk then OfFamily(rpc, RPC_ADDRESS, instance, pods) else rpc == [])
  }

  lemma BlockParts(web: seq<Property>, rpc: seq<Property>, rpcOk: bool, instance: string, pods: seq<string>, config: ClusterConfig)
    requires AreBlocks(web, rpc, rpcOk, instance, pods, config) && NoDuplicates(pods)
    ensures Part(web, 19, 20) && Part(rpc, 20, 21)
  {
    EntriesPart(web, HttpFamily(config), instance, pods);
    if rpcOk {
      EntriesPart(rpc, RPC_ADDRESS, instance, pods);
    }
  }

  lemma NoNameTwice(web: seq<Property>, rpc: seq<Property>, rpcOk: bool, instance: string, pods: seq<string>, config: ClusterConfig)
    requires AreBlocks(web, rpc, rpcOk, instance, pods, config) && NoDuplicates(pods)
    ensures NoDuplicates(Names(DiscoveryDocument(instance, pods, web + rpc, config)))
  {
    var front := CommonHdfsSiteXml(instance) + [MakeDiscoveryHosts(instance, pods)];
    FrontPart(instance, pods);
    BlockParts(web, rpc, rpcOk, instance, pods, config);
    JoinParts(web, rpc, 19, 20, 21);
    JoinParts(front, web + rpc, 15, 19, 21);
    SecurityDiscoveryPart(config);
    JoinReversed(SecurityDiscoveryFor(config), front + (web + rpc), 0, 15, 21);
  }

  // ----- Which ids own addresses -----

  lemma NameInPart(ps: seq<Property>, lo: nat, hi: nat, name: string)
    requires Part(ps, lo, hi)
    ensures name in Names(ps) ==> lo <= Rank(KindOf(name)) < hi
  {
  }

  lemma NamesSplit(a: seq<Property>, b: seq<Property>, name: string)
    ensures name in Names(a + b) <==> name in Names(a) || name in Names(b)
  {
    NamesConcat(a, b);
  }

  /** An address name can only be in the block of its kind. */
  lemma AddressBlock(web: seq<Property>, rpc: seq<Property>, rpcOk: bool, instance: string, pods: seq<string>, config: ClusterConfig, name: string)
    requires AreBlocks(web, rpc, rpcOk, instance, pods, config) && NoDuplicates(pods)
    ensures var names := Names(DiscoveryDocument(instance, pods, web + rpc, config));
            && (KindOf(name) == HttpAddress ==> (name in names <==> name in Names(web)))
            && (KindOf(name) == RpcAddress ==> (name in names <==> name in Names(rpc)))
  {
    var front := CommonHdfsSiteXml(instance) + [MakeDiscoveryHosts(instance, pods)];
    var security := SecurityDiscoveryFor(config);
    NamesSplit(front + (web + rpc), security, name);
    NamesSplit(front, web + rpc, name);
    NamesSplit(web, rpc, name);
    FrontPart(instance, pods);
    BlockParts(web, rpc, rpcOk, instance, pods, config);
    SecurityDiscoveryPart(config);
    NameInPart(front, 15, 19, name);
    NameInPart(web, 19, 20, name);
    NameInPart(rpc, 20, 21, name);
    NameInPart(security, 0, 15, name);
  }

  lemma OwnsEntry(ps: seq<Property>, family: string, instance: string, pods: seq<string>, id: string)
    requires OfFamily(ps, family, instance, pods)
    ensures KeyFor(family, instance, id) in Names(ps) <==> id in pods
  {
    if id in pods {
      var i :| 0 <= i < |pods| && pods[i] == id;
      assert Names(ps)[i] == KeyFor(family, instance, id);
    }
    if KeyFor(family, instance, id) in Names(ps) {
      var i :| 0 <= i < |ps| && Names(ps)[i] == KeyFor(family, instance, id);
      KeyForInjective(family, instance, id, pods[i]);
    }
  }

  /** An id owns a web address exactly if it is a pod's, and an RPC address exactly if moreover the
      RPC pass succeeded. */
  lemma IdOwns(web: seq<Property>, rpc: seq<Property>, rpcOk: bool, instance: string, pods: seq<string>, config: ClusterConfig, id: string)
    requires AreBlocks(web, rpc, rpcOk, instance, pods, config) && NoDuplicates(pods)
    ensures var m := Denote(DiscoveryDocument(instance, pods, web + rpc, config));
            && (KeyFor(HttpFamily(config), instance, id) in m <==> id in pods)
            && (KeyFor(RPC_ADDRESS, instance, id) in m <==> rpcOk && id in pods)
  {
    DenoteKeys(DiscoveryDocument(instance, pods, web + rpc, config));
    AddressKinds(instance + ("." + id));
    AddressBlock(web, rpc, rpcOk, instance, pods, config, KeyFor(HttpFamily(config), instance, id));
    AddressBlock(web, rpc, rpcOk, instance, pods, config, KeyFor(RPC_ADDRESS, instance, id));
    OwnsEntry(web, HttpFamily(config), instance, pods, id);
    if rpcOk {
      OwnsEntry(rpc, RPC_ADDRESS, instance, pods, id);
    }
  }

  /** Every id in the document's own list of NameNodes has a web and an RPC address in it. */
  ghost predicate EveryIdAddressed(d: Document, instance: string, config: ClusterConfig)
  {
    && HA_NAMENODES + instance in Denote(d)
    && forall id | id in Split(Denote(d)[HA_NAMENODES + instance], ',') ::
         KeyFor(HttpFamily(config), instance, id) in Denote(d) && KeyFor(RPC_ADDRESS, instance, id) in Denote(d)
  }

  lemma ListedIds(pods: seq<string>)
    requires forall pod | pod in pods :: ',' !in pod
    ensures Split(Join(pods, ","), ',') == if pods == [] then [""] else pods
  {
    if pods == [] {
      SplitWithout("", ',');
    } else {
      SplitJoin(pods, ',');
    }
  }

  lemma HostsInDocument(web: seq<Property>, rpc: seq<Property>, rpcOk: bool, instance: string, pods: seq<string>, config: ClusterConfig)
    requires AreBlocks(web, rpc, rpcOk, instance, pods, config) && NoDuplicates(pods)
    ensures var m := Denote(DiscoveryDocument(instance, pods, web + rpc, config));
            HA_NAMENODES + instance in m && m[HA_NAMENODES + instance] == Join(pods, ",")
  {
    var hosts := MakeDiscoveryHosts(instance, pods);
    NoNameTwice(web, rpc, rpcOk, instance, pods, config);
    assert hosts in [hosts];
    DenoteMember(DiscoveryDocument(instance, pods, web + rpc, config), hosts);
  }

  lemma BlocksClosedIff(web: seq<Property>, rpc: seq<Property>, rpcOk: bool, instance: string, pods: seq<string>, config: ClusterConfig)
    requires AreBlocks(web, rpc, rpcOk, instance, pods, config) && NoDuplicates(pods)
    requires forall pod | pod in pods :: ',' !in pod
    ensures EveryIdAddressed(DiscoveryDocument(instance, pods, web + rpc, config), instance, config) <==> rpcOk && pods != []
  {
    var d := DiscoveryDocument(instance, pods, web + rpc, config);
    HostsInDocument(web, rpc, rpcOk, instance, pods, config);
    ListedIds(pods);
    var listed := Split(Denote(d)[HA_NAMENODES + instance], ',');
    forall id ensures KeyFor(HttpFamily(config), instance, id) in Denote(d) <==> id in pods
              ensures KeyFor(RPC_ADDRESS, instance, id) in Denote(d) <==> rpcOk && id in pods {
      IdOwns(web, rpc, rpcOk, instance, pods, config, id);
    }
    assert listed[0] in listed;
  }

  lemma NoSecurityName(web: seq<Property>, rpc: seq<Property>, rpcOk: bool, instance: string, pods: seq<string>, config: ClusterConfig, name: string)
    requires AreBlocks(web, rpc, rpcOk, instance, pods, config) && NoDuplicates(pods) && !config.kerberos && Rank(KindOf(name)) < 15
    ensures name !in Denote(DiscoveryDocument(instance, pods, web + rpc, config))
  {
    var front := CommonHdfsSiteXml(instance) + [MakeDiscoveryHosts(instance, pods)];
    DenoteKeys(DiscoveryDocument(instance, pods, web + rpc, config));
    NamesSplit(front + (web + rpc), [], name);
    NamesSplit(front, web + rpc, name);
    NamesSplit(web, rpc, name);
    FrontPart(instance, pods);
    BlockParts(web, rpc, rpcOk, instance, pods, config);
    NameInPart(front, 15, 19, name);
    NameInPart(web, 19, 20, name);
    NameInPart(rpc, 20, 21, name);
  }

  /** What the document says besides the addresses. */
  lemma DiscoveryTexts(web: seq<Property>, rpc: seq<Property>, rpcOk: bool, instance: string, pods: seq<string>, config: ClusterConfig)
    requires AreBlocks(web, rpc, rpcOk, instance, pods, config) && NoDuplicates(pods)
    ensures var d := DiscoveryDocument(instance, pods, web + rpc, config);
            && Says(d, "dfs.nameservices", instance)
            && Says(d, "dfs.client.failover.proxy.provider." + instance,
                    "org.apache.hadoop.hdfs.server.namenode.ha.ConfiguredFailoverProxyProvider")
            && Says(d, "dfs.ha.namenodes." + instance, Join(pods, ","))
            && |d| == 3 + |web| + |rpc| + if config.kerberos then 3 else 0
  {
    var d, common := DiscoveryDocument(instance, pods, web + rpc, config), CommonHdfsSiteXml(instance);
    NoNameTwice(web, rpc, rpcOk, instance, pods, config);
    assert common[0] in common && common[1] in common;
    DenoteMember(d, common[0]);
    DenoteMember(d, common[1]);
    HostsInDocument(web, rpc, rpcOk, instance, pods, config);
  }

  /** A Kerberos setting of the document: its value with Kerberos, and absent without. */
  ghost predicate OnlyWithKerberos(d: Document, config: ClusterConfig, name: string, value: string)
  {
    if config.kerberos then Says(d, name, value) else name !in Denote(d)
  }

  lemma SecurityDiscoveryMember(web: seq<Property>, rpc: seq<Property>, rpcOk: bool, instance: string, pods: seq<string>,
                                config: ClusterConfig, p: Property)
    requires AreBlocks(web, rpc, rpcOk, instance, pods, config) && NoDuplicates(pods) && Rank(KindOf(p.name)) < 15
    requires p in SecurityDiscoveryFor(config.(kerberos := true))
    ensures OnlyWithKerberos(DiscoveryDocument(instance, pods, web + rpc, config), config, p.name, p.value)
  {
    if config.kerberos {
      NoNameTwice(web, rpc, rpcOk, instance, pods, config);
      assert config.(kerberos := true) == config;
      DenoteMember(DiscoveryDocument(instance, pods, web + rpc, config), p);
    } else {
      NoSecurityName(web, rpc, rpcOk, instance, pods, config, p.name);
    }
  }

  lemma SecurityDiscoveryTexts(web: seq<Property>, rpc: seq<Property>, rpcOk: bool, instance: string, pods: seq<string>, config: ClusterConfig)
    requires AreBlocks(web, rpc, rpcOk, instance, pods, config) && NoDuplicates(pods)
    ensures var d := DiscoveryDocument(instance, pods, web + rpc, config);
            && OnlyWithKerberos(d, config, "hadoop.kerberos.keytab.login.autorenewal.enabled", "true")
            && OnlyWithKerberos(d, config, "dfs.data.transfer.protection", "privacy")
            && OnlyWithKerberos(d, config, "dfs.encrypt.data.transfer", "true")
  {
    KeytabRenewalName();
    TransferNames();
    SecurityKinds();
    TransferKinds();
    var security := SecurityDiscoveryFor(config.(kerberos := true));
    assert security[0] in security && security[1] in security && security[2] in security;
    SecurityDiscoveryMember(web, rpc, rpcOk, instance, pods, config, security[0]);
    SecurityDiscoveryMember(web, rpc, rpcOk, instance, pods, config, security[1]);
    SecurityDiscoveryMember(web, rpc, rpcOk, instance, pods, config, security[2]);
  }

  // ----- Over any history -----

  /** The RPC pass of one call, after its web pass. */
  function RpcPass(h: History, start: Lookups, instance: string, pods: seq<string>, tls: bool): Result<seq<Property>>
  {
    EntriesAfter(h, EntriesAfter(h, start.(cache := map[]), instance, pods, WebPort(tls)).1, instance, pods, "rpc").0
  }

  lemma ConnectionBlocks(h: History, start: Lookups, instance: string, pods: seq<string>, config: ClusterConfig)
      returns (web: seq<Property>, rpc: seq<Property>)
    requires ConnectionsAfter(h, start, instance, pods, config.tls).0.Ok?
    ensures AreBlocks(web, rpc, RpcPass(h, start, instance, pods, config.tls).Ok?, instance, pods, config)
    ensures ConnectionsAfter(h, start, instance, pods, config.tls).0.value == web + rpc
  {
    var pass := RpcPass(h, start, instance, pods, config.tls);
    web := EntriesAfter(h, start.(cache := map[]), instance, pods, WebPort(config.tls)).0.value;
    rpc := if pass.Ok? then pass.value else [];
    assert web + [] == web;
    forall i | 0 <= i < |pods|
      ensures web[i].name == KeyFor(HttpFamily(config), instance, pods[i])
      ensures pass.Ok? ==> rpc[i].name == KeyFor(RPC_ADDRESS, instance, pods[i])
    {
      EntryNameIsKey(instance, pods[i], config);
    }
  }

  /** A failing RPC pass is only logged, while the document lists every id all the same: each listed
      id owns both its addresses if and only if the RPC pass succeeded and there is a pod. */
  lemma DiscoveryClosedIff(h: History, start: Lookups, instance: string, pods: seq<string>, config: ClusterConfig)
    requires NoDuplicates(pods) && forall pod | pod in pods :: ',' !in pod
    requires ConnectionsAfter(h, start, instance, pods, config.tls).0.Ok?
    ensures var d := DiscoveryDocument(instance, pods, ConnectionsAfter(h, start, instance, pods, config.tls).0.value, config);
            && NoDuplicates(Names(d))
            && (EveryIdAddressed(d, instance, config) <==> RpcPass(h, start, instance, pods, config.tls).Ok? && pods != [])
  {
    var web, rpc := ConnectionBlocks(h, start, instance, pods, config);
    var rpcOk := RpcPass(h, start, instance, pods, config.tls).Ok?;
    NoNameTwice(web, rpc, rpcOk, instance, pods, config);
    BlocksClosedIff(web, rpc, rpcOk, instance, pods, config);
  }

  // ----- Over an unchanging store -----

  lemma {:induction false} DirectEntriesOkIff(store: Store, instance: string, pods: seq<string>, portName: string)
    ensures DirectEntries(store, instance, pods, portName).Ok? <==>
            forall pod | pod in pods :: DirectAddress(store, pod).Ok? && portName in DirectAddress(store, pod).value.ports
  {
    if pods != [] {
      DirectEntriesOkIff(store, instance, pods[1..], portName);
      assert forall pod :: pod in pods <==> pod == pods[0] || pod in pods[1..];
    }
  }

  /** What that comes to for a store that stays: every pod's listener must offer a port named `rpc`. */
  lemma StoreClosedIff(h: History, store: Store, start: Lookups, instance: string, pods: seq<string>, config: ClusterConfig)
    requires Unchanging(h, store) && NoDuplicates(pods) && forall pod | pod in pods :: ',' !in pod
    requires ConnectionsAfter(h, start, instance, pods, config.tls).0.Ok?
    ensures forall pod | pod in pods :: DirectAddress(store, pod).Ok?
    ensures var d := DiscoveryDocument(instance, pods, ConnectionsAfter(h, start, instance, pods, config.tls).0.value, config);
            EveryIdAddressed(d, instance, config) <==>
            pods != [] && forall pod | pod in pods :: "rpc" in DirectAddress(store, pod).value.ports
  {
    DiscoveryClosedIff(h, start, instance, pods, config);
    EntriesAreDirect(h, store, start.(cache := map[]), instance, pods, WebPort(config.tls));
    var (web, p) := EntriesAfter(h, start.(cache := map[]), instance, pods, WebPort(config.tls));
    EntriesAreDirect(h, store, p, instance, pods, "rpc");
    DirectEntriesOkIff(store, instance, pods, WebPort(config.tls));
    DirectEntriesOkIff(store, instance, pods, "rpc");
  }

  // ----- The builder's calls -----

  lemma AppendIsDocument(web: seq<Property>, rpc: seq<Property>, rpcOk: bool, instance: string, pods: seq<string>, config: ClusterConfig)
    requires AreBlocks(web, rpc, rpcOk, instance, pods, config) && NoDuplicates(pods)
    ensures Append(CommonHdfsSiteXml(instance), [MakeDiscoveryHosts(instance, pods)] + (web + rpc) + SecurityDiscoveryFor(config))
            == Returned(DiscoveryDocument(instance, pods, web + rpc, config))
  {
    var common, rest := CommonHdfsSiteXml(instance), [MakeDiscoveryHosts(instance, pods)] + (web + rpc) + SecurityDiscoveryFor(config);
    var d := DiscoveryDocument(instance, pods, web + rpc, config);
    assert common + rest == d;
    NoNameTwice(web, rpc, rpcOk, instance, pods, config);
    UniqueListIsMerged(d);
    AppendMerges(common, rest);
  }

  lemma UniqueListIsMerged(ps: seq<Property>)
    requires NoDuplicates(Names(ps))
    ensures FirstsBeforeRepeats(ps) && Merged(ps) == ps
  {
    forall i | 0 <= i < |ps| ensures !Repeats(ps, i) {
      assert forall j | 0 <= j < i :: Names(ps)[j] != Names(ps)[i];
    }
    FirstNamesWithoutRepeats(ps);
    MergedUnique(ps, ps);
  }

  /** The hdfs-site.xml of the discovery ConfigMap: the ids of all counted NameNode pods, and the
      addresses found for them, or the error of the web pass. It never panics. */
  method MakeHdfsSiteXmlData(builder: DiscoveryBuilder, groups: Groups, config: ClusterConfig)
      returns (d: Result<Document>, pods: seq<string>)
    modifies builder.client
    ensures Lists(builder.instance, groups, groups.Keys, pods)
    ensures var start := Lookups(old(builder.client.now), map[], old(builder.client.fetched));
            var (r, after) := ConnectionsAfter(builder.client.history, start, builder.instance, pods, config.tls);
            && builder.client.now == after.now && builder.client.fetched == after.fetched
            && d == if r.Fail? then Fail(r.error) else Ok(DiscoveryDocument(builder.instance, pods, r.value, config))
    ensures d.Ok? && ',' !in builder.instance && (forall g | g in groups :: ',' !in g) ==>
              var start := Lookups(old(builder.client.now), map[], old(builder.client.fetched));
              (EveryIdAddressed(d.value, builder.instance, config) <==>
               RpcPass(builder.client.history, start, builder.instance, pods, config.tls).Ok? && pods != [])
  {
    ghost var start := Lookups(builder.client.now, map[], builder.client.fetched);
    var dom := new XmlConfiguration(CommonHdfsSiteXml(builder.instance));
    pods := GetPodNames(builder.instance, groups);
    var hosts := MakeDiscoveryHosts(builder.instance, pods);
    var connections := builder.CreateConnections(pods, config.tls);
    if connections.Fail? {
      return Fail(connections.error), pods;
    }
    var properties := [hosts] + connections.value;
    if config.kerberos {
      properties := properties + SecurityDiscoveryFor(config);
    }
    ghost var web, rpc := ConnectionBlocks(builder.client.history, start, builder.instance, pods, config);
    AppendIsDocument(web, rpc, RpcPass(builder.client.history, start, builder.instance, pods, config.tls).Ok?, builder.instance, pods, config);
    assert config.kerberos || properties + [] == properties;
    var text := dom.String(properties);
    d := Ok(text.value);
    if ',' !in builder.instance && forall g | g in groups :: ',' !in g {
      PodNamesLackComma(builder.instance, groups, pods);
      DiscoveryClosedIff(builder.client.history, start, builder.instance, pods, config);
    }
  }

  lemma PodNamesLackComma(cluster: string, groups: Groups, pods: seq<string>)
    requires Lists(cluster, groups, groups.Keys, pods) && ',' !in cluster && forall g | g in groups :: ',' !in g
    ensures forall pod | pod in pods :: ',' !in pod
  {
    forall pod | pod in pods ensures ',' !in pod {
      var g, i: nat :| g in groups.Keys && i < Count(groups, g) && pod == NameNodeId(cluster, g, i);
      PodNameText(FullName(cluster, NAME_NODE, g), i);
      DigitsLack(i, ',');
    }
  }
}
