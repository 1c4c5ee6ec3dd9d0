/** What the generated hdfs-site.xml guarantees: no name twice, the same document from every call,
    and NameNode ids that are exactly the ones with addresses. */
module HdfsSiteProperties {
  import opened Text
  import opened Sequences
  import opened PodNames
  import opened XmlProperties
  import opened XmlDocuments
  import opened ClusterComponents
  import opened HdfsKeys
  import opened Templates
  import opened HdfsSite

  predicate Plain(name: string)
  {
    '%' !in name && ',' !in name
  }

  /** The names in the settings are made of DNS labels, which hold no percent sign and no comma. */
  predicate DnsNames(s: Settings)
    requires s.Usable()
  {
    Plain(s.instanceName) && Plain(s.StatefulSet()) && Plain(s.nameSpace) && Plain(s.clusterDomain) && Plain(s.config.clusterDomain)
  }

  // ----- Kinds keep the parts apart -----

  /** A part of the document: distinct names, with ranks from `lo` to `hi`, exclusive. */
  ghost predicate Part(ps: seq<Property>, lo: nat, hi: nat)
  {
    NoDuplicates(Names(ps)) && forall i | 0 <= i < |ps| :: lo <= Rank(KindOf(ps[i].name)) < hi
  }

  lemma JoinParts(a: seq<Property>, b: seq<Property>, lo: nat, mid: nat, hi: nat)
    requires Part(a, lo, mid) && Part(b, mid, hi) && lo <= mid <= hi
    ensures Part(a + b, lo, hi)
  {
    var ps := a + b;
    forall i, j | 0 <= i < j < |ps| ensures Names(ps)[i] != Names(ps)[j] {
      if j < |a| {
        assert Names(a)[i] != Names(a)[j];
      } else if i >= |a| {
        assert Names(b)[i - |a|] != Names(b)[j - |a|];
      } else {
        assert Rank(KindOf(a[i].name)) < mid <= Rank(KindOf(b[j - |a|].name));
      }
    }
  }

  /** A part whose ranks are consecutive. */
  lemma ConsecutivePart(ps: seq<Property>, lo: nat)
    requires forall i | 0 <= i < |ps| :: Rank(KindOf(ps[i].name)) == lo + i
    ensures Part(ps, lo, lo + |ps|)
  {
    forall i, j | 0 <= i < j < |ps| ensures Names(ps)[i] != Names(ps)[j] {
      assert Rank(KindOf(ps[i].name)) != Rank(KindOf(ps[j].name));
    }
  }

  lemma TemplatePart()
    ensures Part(TEMPLATE, 0, 7)
  {
    TemplateKinds();
    HaKinds();
    ConsecutivePart(TEMPLATE, 0);
  }

  lemma SecurityPart(config: ClusterConfig)
    ensures Part(SecurityFor(config), 7, 14)
  {
    SecurityKinds();
    TransferKinds();
    ConsecutivePart(SecurityHdfsSiteXml(), 7);
  }

  lemma TlsPart(config: ClusterConfig)
    ensures Part(TlsHdfsSiteXml(config), 14, 15)
  {
    PortAndDataKinds();
    ConsecutivePart(TlsHdfsSiteXml(config), 14);
  }

  lemma ServicePart(s: Settings)
    ensures Part(MakeServiceId(s) + [MakeHdfsReplication(s)], 15, 18)
  {
    GeneratedKinds();
    FamilyKinds(s.instanceName);
    ConsecutivePart(MakeServiceId(s) + [MakeHdfsReplication(s)], 15);
  }

  lemma SinglePart(p: Property)
    ensures Part([p], Rank(KindOf(p.name)), Rank(KindOf(p.name)) + 1)
  {
  }

  lemma DirsPart()
    ensures Part(MakeRoleNodeDataDir(), 23, 25)
  {
    GeneratedKinds();
    ConsecutivePart(MakeRoleNodeDataDir(), 23);
  }

  lemma KeysDiffer(family: string, instanceName: string, statefulSet: string, i: nat, j: nat)
    requires i != j
    ensures KeyFor(family, instanceName, PodName(statefulSet, i)) != KeyFor(family, instanceName, PodName(statefulSet, j))
  {
    var a, b := PodName(statefulSet, i), PodName(statefulSet, j);
    if KeyFor(family, instanceName, a) == KeyFor(family, instanceName, b) {
      var n := |family| + |instanceName| + 1;
      assert KeyFor(family, instanceName, a)[n..] == a && KeyFor(family, instanceName, b)[n..] == b;
      PodNameInjective(statefulSet, i, statefulSet, j);
    }
  }

  /** The properties of one family: one for each NameNode, under that NameNode's key. */
  ghost predicate IsFamily(ps: seq<Property>, family: string, instanceName: string, statefulSet: string, n: nat)
  {
    |ps| == n && forall i | 0 <= i < n :: ps[i].name == KeyFor(family, instanceName, PodName(statefulSet, i))
  }

  lemma FamilyPart(ps: seq<Property>, family: string, instanceName: string, statefulSet: string, n: nat, k: Kind)
    requires IsFamily(ps, family, instanceName, statefulSet, n)
    requires forall i | 0 <= i < n :: KindOf(ps[i].name) == k
    ensures Part(ps, Rank(k), Rank(k) + 1)
  {
    forall i, j | 0 <= i < j < n ensures Names(ps)[i] != Names(ps)[j] {
      KeysDiffer(family, instanceName, statefulSet, i, j);
    }
  }

  lemma ContentIsFamily(family: string, s: Settings, valueTemplate: string)
    requires s.Usable() && DnsNames(s) && '%' !in family
    ensures IsFamily(XmlContent(s.replicas, KeyTemplate(family, s.instanceName, s.StatefulSet()), valueTemplate),
                     family, s.instanceName, s.StatefulSet(), s.replicas)
  {
    forall i | 0 <= i < s.replicas {
      KeyTwice(family, s.instanceName, s.StatefulSet(), i);
    }
  }

  lemma FamilyNamesArePlain()
    ensures '%' !in HTTP_ADDRESS && '%' !in HTTPS_ADDRESS && '%' !in RPC_ADDRESS && '%' !in NAME_DIRS
  {
  }

  lemma HttpPart(s: Settings)
    requires s.Usable() && DnsNames(s)
    ensures Part(MakeNameNodeHttp(s), 19, 20)
  {
    FamilyNamesArePlain();
    ContentIsFamily(HttpFamily(s.config), s, ValueTemplate(s.StatefulSet(), HttpDomain(s)));
    forall i | 0 <= i < s.replicas ensures KindOf(MakeNameNodeHttp(s)[i].name) == HttpAddress {
      AddressKinds(s.instanceName + ("." + PodName(s.StatefulSet(), i)));
    }
    FamilyPart(MakeNameNodeHttp(s), HttpFamily(s.config), s.instanceName, s.StatefulSet(), s.replicas, HttpAddress);
  }

  lemma RpcPart(s: Settings)
    requires s.Usable() && DnsNames(s)
    ensures Part(MakeNameNodeRpc(s), 20, 21)
  {
    FamilyNamesArePlain();
    ContentIsFamily(RPC_ADDRESS, s, ValueTemplate(s.StatefulSet(), RpcDomain(s)));
    forall i | 0 <= i < s.replicas ensures KindOf(MakeNameNodeRpc(s)[i].name) == RpcAddress {
      AddressKinds(s.instanceName + ("." + PodName(s.StatefulSet(), i)));
    }
    FamilyPart(MakeNameNodeRpc(s), RPC_ADDRESS, s.instanceName, s.StatefulSet(), s.replicas, RpcAddress);
  }

  lemma NameDirsPart(s: Settings)
    requires s.Usable() && DnsNames(s)
    ensures Part(MakeNameNodeNameDir(s), 21, 22)
  {
    FamilyNamesArePlain();
    ContentIsFamily(NAME_DIRS, s, NAME_NODE_ROOT);
    forall i | 0 <= i < s.replicas ensures KindOf(MakeNameNodeNameDir(s)[i].name) == NameDirs {
      FamilyKinds(s.instanceName + ("." + PodName(s.StatefulSet(), i)));
    }
    FamilyPart(MakeNameNodeNameDir(s), NAME_DIRS, s.instanceName, s.StatefulSet(), s.replicas, NameDirs);
  }

  lemma GeneratedPart(s: Settings, services: seq<string>)
    requires s.Usable() && DnsNames(s)
    ensures Part(Generated(s, services), 15, 25)
  {
    ServicePart(s);
    SingleParts(s, services);
    HttpPart(s);
    RpcPart(s);
    NameDirsPart(s);
    DirsPart();
    var p2 := MakeServiceId(s) + [MakeHdfsReplication(s)];
    JoinParts(p2, [MakeNameNodeHosts(s)], 15, 18, 19);
    var p3 := p2 + [MakeNameNodeHosts(s)];
    JoinParts(p3, MakeNameNodeHttp(s), 15, 19, 20);
    var p4 := p3 + MakeNameNodeHttp(s);
    JoinParts(p4, MakeNameNodeRpc(s), 15, 20, 21);
    var p5 := p4 + MakeNameNodeRpc(s);
    JoinParts(p5, MakeNameNodeNameDir(s), 15, 21, 22);
    var p6 := p5 + MakeNameNodeNameDir(s);
    JoinParts(p6, [MakeSharedEditDir(s, services)], 15, 22, 23);
    var p7 := p6 + [MakeSharedEditDir(s, services)];
    JoinParts(p7, MakeRoleNodeDataDir(), 15, 23, 25);
  }

  lemma SingleParts(s: Settings, services: seq<string>)
    requires s.Usable()
    ensures Part([MakeNameNodeHosts(s)], 18, 19) && Part([MakeSharedEditDir(s, services)], 22, 23)
  {
    GeneratedKinds();
    FamilyKinds(s.instanceName);
    SinglePart(MakeNameNodeHosts(s));
    SinglePart(MakeSharedEditDir(s, services));
  }

  /** Everything a document starts with before the generated properties. */
  function Head(config: ClusterConfig): seq<Property>
  {
    TEMPLATE + EnabledFor(config)
  }

  lemma HeadPart(config: ClusterConfig)
    ensures Part(Head(config), 0, 15)
  {
    TemplatePart();
    SecurityPart(config);
    TlsPart(config);
    JoinParts(SecurityFor(config), TlsHdfsSiteXml(config), 7, 14, 15);
    JoinParts(TEMPLATE, EnabledFor(config), 0, 7, 15);
  }

  /** The whole document. */
  function HdfsSiteDocument(s: Settings, services: seq<string>): Document
    requires s.Usable()
  {
    Head(s.config) + Generated(s, services)
  }

  lemma DocumentPart(s: Settings, services: seq<string>)
    requires s.Usable() && DnsNames(s)
    ensures Part(HdfsSiteDocument(s, services), 0, 25)
  {
    HeadPart(s.config);
    GeneratedPart(s, services);
    JoinParts(Head(s.config), Generated(s, services), 0, 15, 25);
  }

  // ----- Any number of calls -----

  /** The properties added by calls with the given JournalNode orders. */
  function Batches(s: Settings, orders: seq<seq<string>>): (b: seq<seq<Property>>)
    requires s.Usable()
    ensures |b| == |orders| && forall i | 0 <= i < |orders| :: b[i] == Generated(s, orders[i])
  {
    seq(|orders|, i requires 0 <= i < |orders| => Generated(s, orders[i]))
  }

  lemma GeneratedNames(s: Settings, a: seq<string>, b: seq<string>)
    requires s.Usable()
    ensures Names(Generated(s, a)) == Names(Generated(s, b))
  {
    assert forall i | 0 <= i < |Generated(s, a)| :: Generated(s, a)[i].name == Generated(s, b)[i].name;
  }

  /** However often Generate is called on one generator, and whatever order the JournalNode groups
      came in before, each call returns the document of a fresh generator and that call's order. */
  lemma GenerateIsRepeatable(s: Settings, orders: seq<seq<string>>)
    requires s.Usable() && DnsNames(s) && orders != []
    ensures Append(TEMPLATE, EnabledFor(s.config) + Flatten(Batches(s, orders)))
            == Returned(HdfsSiteDocument(s, orders[|orders| - 1]))
    ensures NoDuplicates(Names(HdfsSiteDocument(s, orders[|orders| - 1])))
  {
    var batches := Batches(s, orders);
    DocumentPart(s, orders[0]);
    DocumentPart(s, orders[|orders| - 1]);
    forall b | b in batches ensures Names(b) == Names(batches[0]) {
      var i :| 0 <= i < |batches| && batches[i] == b;
      GeneratedNames(s, orders[i], orders[0]);
    }
    RepeatedBatchesMerge(Head(s.config), batches);
    Associate(TEMPLATE, EnabledFor(s.config), Flatten(batches));
    AppendMerges(TEMPLATE, EnabledFor(s.config) + Flatten(batches));
  }

  /** The chain of calls the NameNode and JournalNode roles make for their hdfs-site.xml. */
  method MakeHdfsSiteData(settings: Settings, services: seq<string>) returns (d: Outcome<Document>)
    requires settings.Usable() ==> DnsNames(settings)
    ensures d == if settings.Usable() then Returned(HdfsSiteDocument(settings, services)) else Panicked
  {
    var generator := new NameNodeHdfsSiteXmlGenerator(settings);
    var secured := generator.EnablerKerberos();
    var served := secured.EnableHttps();
    ghost var enabled := served.properties;
    assert enabled == EnabledFor(settings.config);
    d := served.Generate(services);
    if settings.Usable() {
      GenerateIsRepeatable(settings, [services]);
      OneBatch(settings, services);
    }
  }

  lemma OneBatch(s: Settings, services: seq<string>)
    requires s.Usable()
    ensures Flatten(Batches(s, [services])) == Generated(s, services)
  {
    var b := Batches(s, [services]);
    assert b[..0] == [];
    assert [] + b[0] == b[0];
  }

  // ----- The document is closed under its own references -----

  lemma DenoteMember(ps: seq<Property>, p: Property)
    requires NoDuplicates(Names(ps)) && p in ps
    ensures p.name in Denote(ps) && Denote(ps)[p.name] == p.value
  {
    var i :| 0 <= i < |ps| && ps[i] == p;
    assert forall j | i < j < |ps| :: Names(ps)[i] != Names(ps)[j];
    DenoteAt(ps, i);
  }

  lemma PartMember(ps: seq<Property>, lo: nat, hi: nat, p: Property)
    requires Part(ps, lo, hi)
    ensures p in ps ==> lo <= Rank(KindOf(p.name)) < hi
  {
  }

  /** Every address property of the document comes from the generated families. */
  lemma AddressMembers(s: Settings, services: seq<string>, p: Property)
    requires s.Usable() && DnsNames(s) && p in HdfsSiteDocument(s, services)
    ensures KindOf(p.name) == HttpAddress ==> p in MakeNameNodeHttp(s)
    ensures KindOf(p.name) == RpcAddress ==> p in MakeNameNodeRpc(s)
    ensures KindOf(p.name) != DataDir
  {
    assert p in Head(s.config) ==> Rank(KindOf(p.name)) < 15 by {
      HeadPart(s.config);
      PartMember(Head(s.config), 0, 15, p);
    }
    assert p in MakeServiceId(s) + [MakeHdfsReplication(s)] ==> Rank(KindOf(p.name)) < 18 by {
      ServicePart(s);
      PartMember(MakeServiceId(s) + [MakeHdfsReplication(s)], 15, 18, p);
    }
    assert p in [MakeNameNodeHosts(s)] ==> Rank(KindOf(p.name)) == 18 by {
      SingleParts(s, services);
      PartMember([MakeNameNodeHosts(s)], 18, 19, p);
    }
    assert p in [MakeSharedEditDir(s, services)] ==> Rank(KindOf(p.name)) == 22 by {
      SingleParts(s, services);
      PartMember([MakeSharedEditDir(s, services)], 22, 23, p);
    }
    assert p in MakeNameNodeHttp(s) ==> Rank(KindOf(p.name)) == 19 by {
      HttpPart(s);
      PartMember(MakeNameNodeHttp(s), 19, 20, p);
    }
    assert p in MakeNameNodeRpc(s) ==> Rank(KindOf(p.name)) == 20 by {
      RpcPart(s);
      PartMember(MakeNameNodeRpc(s), 20, 21, p);
    }
    assert p in MakeNameNodeNameDir(s) ==> Rank(KindOf(p.name)) == 21 by {
      NameDirsPart(s);
      PartMember(MakeNameNodeNameDir(s), 21, 22, p);
    }
    assert p in MakeRoleNodeDataDir() ==> 23 <= Rank(KindOf(p.name)) < 25 by {
      DirsPart();
      PartMember(MakeRoleNodeDataDir(), 23, 25, p);
    }
    WhichPart(s, services, p);
  }

  lemma WhichPart(s: Settings, services: seq<string>, p: Property)
    requires s.Usable() && p in HdfsSiteDocument(s, services)
    ensures p in Head(s.config) || p in MakeServiceId(s) + [MakeHdfsReplication(s)] || p in [MakeNameNodeHosts(s)]
            || p in MakeNameNodeHttp(s) || p in MakeNameNodeRpc(s) || p in MakeNameNodeNameDir(s)
            || p in [MakeSharedEditDir(s, services)] || p in MakeRoleNodeDataDir()
  {
  }

  lemma PrefixKind(name: string)
    ensures RPC_ADDRESS <= name ==> KindOf(name) == RpcAddress
    ensures HTTP_ADDRESS <= name || HTTPS_ADDRESS <= name ==> KindOf(name) == HttpAddress
  {
    if RPC_ADDRESS <= name {
      AddressKinds(name[|RPC_ADDRESS|..]);
      assert name == RPC_ADDRESS + name[|RPC_ADDRESS|..];
    }
    if HTTP_ADDRESS <= name {
      AddressKinds(name[|HTTP_ADDRESS|..]);
      assert name == HTTP_ADDRESS + name[|HTTP_ADDRESS|..];
    }
    if HTTPS_ADDRESS <= name {
      AddressKinds(name[|HTTPS_ADDRESS|..]);
      assert name == HTTPS_ADDRESS + name[|HTTPS_ADDRESS|..];
    }
  }

  /** The host name of a NameNode pod. */
  function HostOf(id: string, s: Settings, domain: string): string
    requires s.Usable()
  {
    id + "." + s.StatefulSet() + "." + s.nameSpace + ".svc." + domain
  }

  /** Addresses exist for exactly the given ids: one RPC and one web address each, with the
      id's own host, no address of the other web scheme, and none that belongs to no id. */
  ghost predicate AddressesFor(d: Document, s: Settings, ids: seq<string>)
    requires s.Usable()
  {
    && NoDuplicates(Names(d))
    && (forall id | id in ids ::
          && Property(KeyFor(RPC_ADDRESS, s.instanceName, id), HostOf(id, s, s.clusterDomain) + ":8020") in d
          && Property(KeyFor(HttpFamily(s.config), s.instanceName, id),
                      HostOf(id, s, s.config.clusterDomain) + if s.config.tls then ":9871" else ":9870") in d)
    && (forall p | p in d && RPC_ADDRESS <= p.name :: exists id :: id in ids && p.name == KeyFor(RPC_ADDRESS, s.instanceName, id))
    && (forall p | p in d && (HTTP_ADDRESS <= p.name || HTTPS_ADDRESS <= p.name) ::
          exists id :: id in ids && p.name == KeyFor(HttpFamily(s.config), s.instanceName, id))
  }

  lemma RpcPortText()
    ensures Itoa(8020) == "8020"
  {
    assert Itoa(8) == "8" && Itoa(80) == "80" && Itoa(802) == "802";
  }

  lemma WebPortTexts()
    ensures Itoa(9870) == "9870" && Itoa(9871) == "9871"
  {
    assert Itoa(9) == "9" && Itoa(98) == "98" && Itoa(987) == "987";
  }

  lemma PortTexts()
    ensures ":" + (Itoa(8020) + "") == ":8020"
    ensures ":" + (Itoa(9870) + "") == ":9870"
    ensures ":" + (Itoa(9871) + "") == ":9871"
  {
    RpcPortText();
    WebPortTexts();
  }

  lemma DomainTexts(s: Settings)
    requires s.Usable()
    ensures RpcDomain(s) == s.StatefulSet() + ("." + (s.nameSpace + (".svc." + (s.clusterDomain + ":8020"))))
    ensures HttpDomain(s) == s.StatefulSet() + ("." + (s.nameSpace + (".svc." +
              (s.config.clusterDomain + if s.config.tls then ":9871" else ":9870"))))
  {
    PortTexts();
    DnsDomainText(s.StatefulSet(), s.nameSpace, s.clusterDomain, RPC_PORT);
    DnsDomainText(s.StatefulSet(), s.nameSpace, s.config.clusterDomain, if s.config.tls then HTTPS_PORT else HTTP_PORT);
  }

  lemma Regroup5(id: string, a: string, b: string, c: string, port: string)
    ensures id + ("." + (a + ("." + (b + (".svc." + (c + port)))))) == id + "." + a + "." + b + ".svc." + c + port
  {
  }

  /** A NameNode's two addresses are its host name and the port: 8020 for RPC, 9871 for HTTPS and 9870 for HTTP. */
  lemma AddressText(s: Settings, id: string)
    requires s.Usable()
    ensures id + ("." + RpcDomain(s)) == HostOf(id, s, s.clusterDomain) + ":8020"
    ensures id + ("." + HttpDomain(s)) == HostOf(id, s, s.config.clusterDomain) + if s.config.tls then ":9871" else ":9870"
  {
    DomainTexts(s);
    Regroup5(id, s.StatefulSet(), s.nameSpace, s.clusterDomain, ":8020");
    Regroup5(id, s.StatefulSet(), s.nameSpace, s.config.clusterDomain, if s.config.tls then ":9871" else ":9870");
  }

  lemma DomainsArePlain(s: Settings)
    requires s.Usable() && DnsNames(s)
    ensures '%' !in RpcDomain(s) && '%' !in HttpDomain(s)
  {
    DomainTexts(s);
    assert '%' !in ":8020" && '%' !in ":9870" && '%' !in ":9871" && '%' !in ".svc." && '%' !in ".";
  }

  lemma AddressAt(s: Settings, i: nat)
    requires s.Usable() && DnsNames(s) && i < s.replicas
    ensures var id := PodName(s.StatefulSet(), i);
            && MakeNameNodeRpc(s)[i] == Property(KeyFor(RPC_ADDRESS, s.instanceName, id), id + ("." + RpcDomain(s)))
            && MakeNameNodeHttp(s)[i] == Property(KeyFor(HttpFamily(s.config), s.instanceName, id), id + ("." + HttpDomain(s)))
  {
    FamilyNamesArePlain();
    DomainsArePlain(s);
    KeyTwice(RPC_ADDRESS, s.instanceName, s.StatefulSet(), i);
    ValueTwice(s.StatefulSet(), RpcDomain(s), i);
    ValueHasVerb(s.StatefulSet(), RpcDomain(s));
    KeyTwice(HttpFamily(s.config), s.instanceName, s.StatefulSet(), i);
    ValueTwice(s.StatefulSet(), HttpDomain(s), i);
    ValueHasVerb(s.StatefulSet(), HttpDomain(s));
  }

  lemma AddressesPresent(s: Settings, services: seq<string>, id: string)
    requires s.Usable() && DnsNames(s) && id in PodNameList(s.StatefulSet(), s.replicas)
    ensures Property(KeyFor(RPC_ADDRESS, s.instanceName, id), HostOf(id, s, s.clusterDomain) + ":8020") in HdfsSiteDocument(s, services)
    ensures Property(KeyFor(HttpFamily(s.config), s.instanceName, id),
                     HostOf(id, s, s.config.clusterDomain) + if s.config.tls then ":9871" else ":9870") in HdfsSiteDocument(s, services)
  {
    var ids := PodNameList(s.StatefulSet(), s.replicas);
    var i :| 0 <= i < |ids| && ids[i] == id;
    AddressAt(s, i);
    AddressText(s, id);
    assert MakeNameNodeRpc(s)[i] in MakeNameNodeRpc(s) && MakeNameNodeHttp(s)[i] in MakeNameNodeHttp(s);
  }

  lemma RpcHasOwner(s: Settings, services: seq<string>, p: Property)
    requires s.Usable() && DnsNames(s) && p in HdfsSiteDocument(s, services) && RPC_ADDRESS <= p.name
    ensures exists id :: id in PodNameList(s.StatefulSet(), s.replicas) && p.name == KeyFor(RPC_ADDRESS, s.instanceName, id)
  {
    PrefixKind(p.name);
    AddressMembers(s, services, p);
    var i :| 0 <= i < |MakeNameNodeRpc(s)| && MakeNameNodeRpc(s)[i] == p;
    AddressAt(s, i);
    assert PodNameList(s.StatefulSet(), s.replicas)[i] in PodNameList(s.StatefulSet(), s.replicas);
  }

  lemma HttpHasOwner(s: Settings, services: seq<string>, p: Property)
    requires s.Usable() && DnsNames(s) && p in HdfsSiteDocument(s, services) && (HTTP_ADDRESS <= p.name || HTTPS_ADDRESS <= p.name)
    ensures exists id :: id in PodNameList(s.StatefulSet(), s.replicas) && p.name == KeyFor(HttpFamily(s.config), s.instanceName, id)
  {
    PrefixKind(p.name);
    AddressMembers(s, services, p);
    var i :| 0 <= i < |MakeNameNodeHttp(s)| && MakeNameNodeHttp(s)[i] == p;
    AddressAt(s, i);
    assert PodNameList(s.StatefulSet(), s.replicas)[i] in PodNameList(s.StatefulSet(), s.replicas);
  }

  lemma DocumentAddresses(s: Settings, services: seq<string>)
    requires s.Usable() && DnsNames(s)
    ensures AddressesFor(HdfsSiteDocument(s, services), s, PodNameList(s.StatefulSet(), s.replicas))
  {
    var d, ids := HdfsSiteDocument(s, services), PodNameList(s.StatefulSet(), s.replicas);
    DocumentPart(s, services);
    forall id | id in ids
      ensures Property(KeyFor(RPC_ADDRESS, s.instanceName, id), HostOf(id, s, s.clusterDomain) + ":8020") in d
      ensures Property(KeyFor(HttpFamily(s.config), s.instanceName, id),
                       HostOf(id, s, s.config.clusterDomain) + if s.config.tls then ":9871" else ":9870") in d
    {
      AddressesPresent(s, services, id);
    }
    forall p | p in d && RPC_ADDRESS <= p.name
      ensures exists id :: id in ids && p.name == KeyFor(RPC_ADDRESS, s.instanceName, id)
    {
      RpcHasOwner(s, services, p);
    }
    forall p | p in d && (HTTP_ADDRESS <= p.name || HTTPS_ADDRESS <= p.name)
      ensures exists id :: id in ids && p.name == KeyFor(HttpFamily(s.config), s.instanceName, id)
    {
      HttpHasOwner(s, services, p);
    }
  }

  lemma HostsValue(s: Settings, services: seq<string>)
    requires s.Usable() && DnsNames(s)
    ensures var d := HdfsSiteDocument(s, services);
            && HA_NAMENODES + s.instanceName in Denote(d)
            && Denote(d)[HA_NAMENODES + s.instanceName] == Join(PodNameList(s.StatefulSet(), s.replicas), ",")
  {
    DocumentPart(s, services);
    assert MakeNameNodeHosts(s) in [MakeNameNodeHosts(s)];
    assert MakeNameNodeHosts(s) in Generated(s, services);
    DenoteMember(HdfsSiteDocument(s, services), MakeNameNodeHosts(s));
  }

  /** The document is closed: splitting the value of `dfs.ha.namenodes` gives exactly the ids that
      own an RPC and a web address, if and only if there is at least one NameNode. */
  lemma HighAvailabilityClosedIff(s: Settings, services: seq<string>)
    requires s.Usable() && DnsNames(s)
    ensures HA_NAMENODES + s.instanceName in Denote(HdfsSiteDocument(s, services))
    ensures AddressesFor(HdfsSiteDocument(s, services), s,
                         Split(Denote(HdfsSiteDocument(s, services))[HA_NAMENODES + s.instanceName], ','))
            <==> s.replicas >= 1
  {
    var d, ids := HdfsSiteDocument(s, services), PodNameList(s.StatefulSet(), s.replicas);
    DocumentAddresses(s, services);
    HostsValue(s, services);
    if s.replicas >= 1 {
      IdsSplitBack(s);
    } else {
      NoIdsDangle(s, services);
    }
  }

  lemma IdsSplitBack(s: Settings)
    requires s.Usable() && DnsNames(s) && s.replicas >= 1
    ensures Split(Join(PodNameList(s.StatefulSet(), s.replicas), ","), ',') == PodNameList(s.StatefulSet(), s.replicas)
  {
    var ids := PodNameList(s.StatefulSet(), s.replicas);
    forall id | id in ids ensures ',' !in id {
      var i :| 0 <= i < |ids| && ids[i] == id;
      PodNameText(s.StatefulSet(), i);
      DigitsLack(i, ',');
    }
    SplitJoin(ids, ',');
  }

  /** Without NameNodes the value splits into one empty id, which owns no address. */
  lemma NoIdsDangle(s: Settings, services: seq<string>)
    requires s.Usable() && DnsNames(s) && s.replicas == 0
    ensures !AddressesFor(HdfsSiteDocument(s, services), s, Split("", ','))
  {
    var d := HdfsSiteDocument(s, services);
    SplitWithout("", ',');
    assert "" in Split("", ',');
    var p := Property(KeyFor(RPC_ADDRESS, s.instanceName, ""), HostOf("", s, s.clusterDomain) + ":8020");
    AddressKinds(s.instanceName + ("." + ""));
    if p in d {
      AddressMembers(s, services, p);
    }
  }

  // ----- The DataNode's document -----

  /** The chain of calls the DataNode role makes. Its first call already returns the embedded
      generator, so the chain ends in that generator's Generate and the config map is left out. */
  method MakeDataNodeHdfsSiteData(settings: Settings, dataNodeConfig: map<string, string>, services: seq<string>)
      returns (d: Outcome<Document>)
    requires settings.Usable() ==> DnsNames(settings)
    ensures d == if settings.Usable() then Returned(HdfsSiteDocument(settings, services)) else Panicked
  {
    var generator := new DataNodeHdfsSiteXmlGenerator(settings, dataNodeConfig);
    var secured := generator.EnablerKerberos();
    var served := secured.EnableHttps();
    ghost var enabled := served.properties;
    assert enabled == EnabledFor(settings.config);
    d := served.Generate(services);
    if settings.Usable() {
      GenerateIsRepeatable(settings, [services]);
      OneBatch(settings, services);
    }
  }

  /** The calls the DataNode generator is made for: the same ones, each on the generator itself. */
  method MakeIntendedDataNodeSite(settings: Settings, dataNodeConfig: map<string, string>, services: seq<string>)
      returns (d: Outcome<Document>)
    requires settings.Usable() ==> DnsNames(settings)
    ensures d.Returned? <==> settings.Usable()
    ensures d.Returned? ==> HdfsSiteDocument(settings, services) <= d.value
                            && Denote(d.value) == Denote(HdfsSiteDocument(settings, services)) + dataNodeConfig
  {
    var generator := new DataNodeHdfsSiteXmlGenerator(settings, dataNodeConfig);
    var _ := generator.EnablerKerberos();
    var _ := generator.EnableHttps();
    ghost var enabled := generator.inner.properties;
    assert enabled == EnabledFor(settings.config);
    d := generator.Generate(services);
    if settings.Usable() {
      GenerateIsRepeatable(settings, [services]);
      OneBatch(settings, services);
    }
  }

  lemma MergeAddsNothingIff(m: map<string, string>, c: map<string, string>)
    ensures m == m + c <==> forall k | k in c :: k in m && m[k] == c[k]
  {
  }

  /** In a list without repeated names the denoted map holds exactly the list's properties. */
  lemma DenotesItsMembers(ps: seq<Property>, p: Property)
    requires NoDuplicates(Names(ps))
    ensures p in ps <==> p.name in Denote(ps) && Denote(ps)[p.name] == p.value
  {
    if p.name in Denote(ps) {
      DenoteKeys(ps);
      var i :| 0 <= i < |ps| && Names(ps)[i] == p.name;
      DenoteMember(ps, ps[i]);
    }
    if p in ps {
      DenoteMember(ps, p);
    }
  }

  /** No generated document holds the DataNode's directories. */
  lemma DataDirIsMissing(s: Settings, services: seq<string>)
    requires s.Usable() && DnsNames(s)
    ensures "dfs.datanode.data.dir" !in Denote(HdfsSiteDocument(s, services))
  {
    var d := HdfsSiteDocument(s, services);
    DenoteKeys(d);
    PortAndDataKinds();
    forall i | 0 <= i < |d| ensures Names(d)[i] != DATA_DIR {
      AddressMembers(s, services, d[i]);
    }
  }

  /** The DataNode's document as it is made and as it is meant. They denote the same map if and only
      if the made one already holds every entry of the config map. So with any value for the data
      directories, the one setting the role passes, the meant document has it and the made one has not. */
  method MakeBothDataNodeSites(settings: Settings, dataNodeConfig: map<string, string>, services: seq<string>)
      returns (made: Outcome<Document>, meant: Outcome<Document>)
    requires settings.Usable() ==> DnsNames(settings)
    ensures made.Returned? <==> settings.Usable()
    ensures meant.Returned? <==> settings.Usable()
    ensures made.Returned? ==>
              (Denote(made.value) == Denote(meant.value) <==>
               forall k | k in dataNodeConfig :: Property(k, dataNodeConfig[k]) in made.value)
    ensures made.Returned? && "dfs.datanode.data.dir" in dataNodeConfig ==>
              && "dfs.datanode.data.dir" !in Denote(made.value)
              && "dfs.datanode.data.dir" in Denote(meant.value)
              && Denote(meant.value)["dfs.datanode.data.dir"] == dataNodeConfig["dfs.datanode.data.dir"]
  {
    made := MakeDataNodeHdfsSiteData(settings, dataNodeConfig, services);
    meant := MakeIntendedDataNodeSite(settings, dataNodeConfig, services);
    if settings.Usable() {
      ChainIsIntendedIff(settings, services, dataNodeConfig);
      DataDirIsMissing(settings, services);
    }
  }

  lemma ChainIsIntendedIff(s: Settings, services: seq<string>, dataNodeConfig: map<string, string>)
    requires s.Usable() && DnsNames(s)
    ensures var d := HdfsSiteDocument(s, services);
            Denote(d) == Denote(d) + dataNodeConfig <==> forall k | k in dataNodeConfig :: Property(k, dataNodeConfig[k]) in d
  {
    var d := HdfsSiteDocument(s, services);
    DocumentPart(s, services);
    MergeAddsNothingIff(Denote(d), dataNodeConfig);
    forall k | k in dataNodeConfig
      ensures Property(k, dataNodeConfig[k]) in d <==> k in Denote(d) && Denote(d)[k] == dataNodeConfig[k]
    {
      DenotesItsMembers(d, Property(k, dataNodeConfig[k]));
    }
  }

  /** The shared-edits value of the document names the whole JournalNode quorum, each group's
      endpoint once, for every role and every order the groups came in. */
  lemma DocumentNamesQuorum(s: Settings, services: seq<string>, cluster: string, journalGroups: set<string>)
    requires s.Usable() && DnsNames(s)
    requires IsQuorum(services, cluster, journalGroups) && journalGroups != {}
    requires ';' !in cluster && '/' !in cluster && forall g | g in journalGroups :: ';' !in g && '/' !in g
    ensures var m := Denote(HdfsSiteDocument(s, services));
            && SHARED_EDITS in m && "qjournal://" <= m[SHARED_EDITS]
            && IsQuorum(ParseJournalUrl(m[SHARED_EDITS]).0, cluster, journalGroups)
            && (forall e :: e in ParseJournalUrl(m[SHARED_EDITS]).0 <==>
                  exists g | g in journalGroups :: e == cluster + "-journalnode-" + g + ":8485")
            && ParseJournalUrl(m[SHARED_EDITS]).1 == s.instanceName
  {
    DocumentPart(s, services);
    var p := MakeSharedEditDir(s, services);
    assert p in [p];
    assert p in Generated(s, services);
    DenoteMember(HdfsSiteDocument(s, services), p);
    SharedEditsNameQuorum(cluster, s.instanceName, journalGroups, services);
  }

  /** Following the references from the top: the nameservice the document declares has a proxy
      provider and a list of NameNodes under its own name, and every NameNode in that list, as
      well as a pod that reads the unqualified names, finds the same data directory. */
  lemma NameserviceResolves(s: Settings, services: seq<string>, id: string)
    requires s.Usable() && DnsNames(s) && id in PodNameList(s.StatefulSet(), s.replicas)
    ensures var m := Denote(HdfsSiteDocument(s, services));
            && NAMESERVICES in m && m[NAMESERVICES] == s.instanceName
            && PROXY_PROVIDER + m[NAMESERVICES] in m && HA_NAMENODES + m[NAMESERVICES] in m
            && KeyFor(NAME_DIRS, m[NAMESERVICES], id) in m && NAME_DIR in m
            && m[KeyFor(NAME_DIRS, m[NAMESERVICES], id)] == m[NAME_DIR] == NAME_NODE_ROOT
  {
    var d := HdfsSiteDocument(s, services);
    DocumentPart(s, services);
    HostsValue(s, services);
    var ids := PodNameList(s.StatefulSet(), s.replicas);
    var i :| 0 <= i < |ids| && ids[i] == id;
    NameDirAt(s, i);
    DenoteMember(d, MakeServiceId(s)[0]);
    DenoteMember(d, MakeServiceId(s)[1]);
    DenoteMember(d, MakeRoleNodeDataDir()[1]);
    assert MakeNameNodeNameDir(s)[i] in MakeNameNodeNameDir(s);
    DenoteMember(d, MakeNameNodeNameDir(s)[i]);
  }

  lemma NameDirAt(s: Settings, i: nat)
    requires s.Usable() && DnsNames(s) && i < s.replicas
    ensures MakeNameNodeNameDir(s)[i] == Property(KeyFor(NAME_DIRS, s.instanceName, PodName(s.StatefulSet(), i)), NAME_NODE_ROOT)
  {
    FamilyNamesArePlain();
    KeyTwice(NAME_DIRS, s.instanceName, s.StatefulSet(), i);
    assert '%' !in NAME_NODE_ROOT;
    assert forall j | 0 <= j < |NAME_NODE_ROOT| :: NAME_NODE_ROOT[j] in NAME_NODE_ROOT;
  }

  /** Which part of the head a name of the document belongs to. */
  lemma HeadMembers(s: Settings, services: seq<string>, p: Property)
    requires s.Usable() && DnsNames(s) && p in HdfsSiteDocument(s, services)
    ensures 7 <= Rank(KindOf(p.name)) < 14 ==> p in SecurityFor(s.config)
    ensures Rank(KindOf(p.name)) == 14 ==> p in TlsHdfsSiteXml(s.config)
  {
    GeneratedPart(s, services);
    PartMember(Generated(s, services), 15, 25, p);
    TemplatePart();
    PartMember(TEMPLATE, 0, 7, p);
    SecurityPart(s.config);
    PartMember(SecurityFor(s.config), 7, 14, p);
    TlsPart(s.config);
    PartMember(TlsHdfsSiteXml(s.config), 14, 15, p);
  }

  lemma PresentName(d: Document, name: string) returns (p: Property)
    requires name in Denote(d)
    ensures p in d && p.name == name
  {
    DenoteKeys(d);
    var i :| 0 <= i < |d| && Names(d)[i] == name;
    p := d[i];
  }

  lemma WebPortNames()
    ensures REGISTERED_HTTPS_PORT != REGISTERED_HTTP_PORT
  {
    assert |REGISTERED_HTTPS_PORT| != |REGISTERED_HTTP_PORT|;
  }

  lemma OnlyOneWebPort(s: Settings, services: seq<string>, name: string)
    requires s.Usable() && DnsNames(s) && Rank(KindOf(name)) == 14
    ensures name in Denote(HdfsSiteDocument(s, services)) <==> name == TlsHdfsSiteXml(s.config)[0].name
  {
    var d := HdfsSiteDocument(s, services);
    DocumentPart(s, services);
    DenoteMember(d, TlsHdfsSiteXml(s.config)[0]);
    if name in Denote(d) {
      var p := PresentName(d, name);
      HeadMembers(s, services, p);
    }
  }

  /** The registered web port is the one of the scheme in use, and only that one. */
  lemma WebPortFollowsTls(s: Settings, services: seq<string>)
    requires s.Usable() && DnsNames(s)
    ensures REGISTERED_HTTPS_PORT in Denote(HdfsSiteDocument(s, services)) <==> s.config.tls
    ensures REGISTERED_HTTP_PORT in Denote(HdfsSiteDocument(s, services)) <==> !s.config.tls
  {
    PortAndDataKinds();
    WebPortNames();
    OnlyOneWebPort(s, services, REGISTERED_HTTPS_PORT);
    OnlyOneWebPort(s, services, REGISTERED_HTTP_PORT);
  }

  /** The Kerberos properties, with HTTPS as the only web policy, are there exactly with Kerberos. */
  lemma SecurityFollowsKerberos(s: Settings, services: seq<string>, p: Property)
    requires s.Usable() && DnsNames(s) && p in SecurityHdfsSiteXml()
    ensures p.name in Denote(HdfsSiteDocument(s, services)) <==> s.config.kerberos
    ensures s.config.kerberos ==> Denote(HdfsSiteDocument(s, services))[p.name] == p.value
  {
    var d := HdfsSiteDocument(s, services);
    DocumentPart(s, services);
    SecurityPart(ClusterConfig(false, true, ""));
    PartMember(SecurityHdfsSiteXml(), 7, 14, p);
    if s.config.kerberos {
      DenoteMember(d, p);
    } else if p.name in Denote(d) {
      var q := PresentName(d, p.name);
      HeadMembers(s, services, q);
    }
  }
}
