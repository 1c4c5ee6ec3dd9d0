/** What a reader of a generated hdfs-site.xml finds in it, name by name, as text. */
module HdfsSiteTexts {
  import opened Text
  import opened PodNames
  import opened XmlProperties
  import opened ClusterComponents
  import opened HdfsKeys
  import opened Templates
  import opened HdfsSite
  import opened HdfsSiteProperties

  /** The document gives `name` the value `value`. */
  ghost predicate Says(d: Document, name: string, value: string)
  {
    name in Denote(d) && Denote(d)[name] == value
  }

  lemma SaysMember(s: Settings, services: seq<string>, p: Property)
    requires s.Usable() && DnsNames(s) && p in HdfsSiteDocument(s, services)
    ensures Says(HdfsSiteDocument(s, services), p.name, p.value)
  {
    DocumentPart(s, services);
    DenoteMember(HdfsSiteDocument(s, services), p);
  }

  // ----- The names, spelled out -----

  lemma RegisteredNames()
    ensures REGISTERED_HOSTNAME == "dfs.datanode.registered.hostname"
    ensures REGISTERED_IPC_PORT == "dfs.datanode.registered.ipc.port"
    ensures REGISTERED_PORT == "dfs.datanode.registered.port"
  {
  }

  lemma RegisteredWebNames()
    ensures REGISTERED_HTTPS_PORT == "dfs.datanode.registered.https.port"
    ensures REGISTERED_HTTP_PORT == "dfs.datanode.registered.http.port"
  {
  }

  lemma HaNames()
    ensures AUTOMATIC_FAILOVER == "dfs.ha.automatic-failover.enabled"
    ensures FENCING_METHODS == "dfs.ha.fencing.methods"
    ensures NAMENODE_ID == "dfs.ha.namenode.id"
  {
  }

  lemma SecurityNames()
    ensures BLOCK_TOKEN == "dfs.block.access.token.enable"
    ensures HTTP_POLICY == "dfs.http.policy"
  {
  }

  lemma KeytabRenewalName()
    ensures KEYTAB_RENEWAL == "hadoop.kerberos.keytab.login.autorenewal.enabled"
  {
  }

  lemma TransferNames()
    ensures HTTPS_SERVER_KEYSTORE == "dfs.https.server.keystore.resource"
    ensures HTTPS_CLIENT_KEYSTORE == "dfs.https.client.keystore.resource"
    ensures ENCRYPT_TRANSFER == "dfs.encrypt.data.transfer"
    ensures TRANSFER_PROTECTION == "dfs.data.transfer.protection"
  {
  }

  lemma SharedEditsName()
    ensures SHARED_EDITS == "dfs.namenode.shared.edits.dir"
  {
  }

  // ----- The values -----

  lemma TemplateMember(s: Settings, services: seq<string>, i: nat)
    requires s.Usable() && DnsNames(s) && i < |TEMPLATE|
    ensures Says(HdfsSiteDocument(s, services), TEMPLATE[i].name, TEMPLATE[i].value)
  {
    assert TEMPLATE[i] in TEMPLATE;
    SaysMember(s, services, TEMPLATE[i]);
  }

  /** What every document starts with. */
  lemma TemplateTexts(s: Settings, services: seq<string>)
    requires s.Usable() && DnsNames(s)
    ensures var d := HdfsSiteDocument(s, services);
            && Says(d, "dfs.datanode.registered.hostname", "${env.POD_ADDRESS}")
            && Says(d, "dfs.datanode.registered.ipc.port", "${env.IPC_PORT}")
            && Says(d, "dfs.datanode.registered.port", "${env.DATA_PORT}")
            && Says(d, "dfs.ha.automatic-failover.enabled", "true")
            && Says(d, "dfs.ha.fencing.methods", "shell(/bin/true)")
            && Says(d, "dfs.ha.namenode.id", "${env.POD_NAME}")
            && Says(d, "dfs.namenode.datanode." + "registration.unsafe.allow-address-override", "true")
  {
    RegisteredNames();
    HaNames();
    TemplateMember(s, services, 0);
    TemplateMember(s, services, 1);
    TemplateMember(s, services, 2);
    TemplateMember(s, services, 3);
    TemplateMember(s, services, 4);
    TemplateMember(s, services, 5);
    TemplateMember(s, services, 6);
  }

  /** The port a DataNode registers its web server with is the one of the scheme in use. */
  lemma WebPortText(s: Settings, services: seq<string>)
    requires s.Usable() && DnsNames(s)
    ensures var d := HdfsSiteDocument(s, services);
            if s.config.tls
            then Says(d, "dfs.datanode.registered.https.port", "${env.HTTPS_PORT}") && "dfs.datanode.registered.http.port" !in Denote(d)
            else Says(d, "dfs.datanode.registered.http.port", "${env.HTTP_PORT}") && "dfs.datanode.registered.https.port" !in Denote(d)
  {
    RegisteredWebNames();
    WebPortFollowsTls(s, services);
    var p := TlsHdfsSiteXml(s.config)[0];
    assert p in TlsHdfsSiteXml(s.config);
    SaysMember(s, services, p);
  }

  /** The document gives `name` this value exactly with Kerberos, and otherwise no value. */
  ghost predicate WithKerberos(s: Settings, services: seq<string>, name: string, value: string)
    requires s.Usable()
  {
    if s.config.kerberos then Says(HdfsSiteDocument(s, services), name, value) else name !in Denote(HdfsSiteDocument(s, services))
  }

  lemma SecurityMember(s: Settings, services: seq<string>, i: nat)
    requires s.Usable() && DnsNames(s) && i < 7
    ensures WithKerberos(s, services, SecurityHdfsSiteXml()[i].name, SecurityHdfsSiteXml()[i].value)
  {
    SecurityFollowsKerberos(s, services, SecurityHdfsSiteXml()[i]);
  }

  lemma SecurityTexts(s: Settings, services: seq<string>)
    requires s.Usable() && DnsNames(s)
    ensures WithKerberos(s, services, "dfs.block.access.token.enable", "true")
    ensures WithKerberos(s, services, "dfs.http.policy", "HTTPS_ONLY")
    ensures WithKerberos(s, services, "hadoop.kerberos.keytab.login.autorenewal.enabled", "true")
    ensures WithKerberos(s, services, "dfs.https.server.keystore.resource", "ssl-server.xml")
    ensures WithKerberos(s, services, "dfs.https.client.keystore.resource", "ssl-client.xml")
    ensures WithKerberos(s, services, "dfs.encrypt.data.transfer", "true")
    ensures WithKerberos(s, services, "dfs.data.transfer.protection", "privacy")
  {
    SecurityNames();
    KeytabRenewalName();
    TransferNames();
    SecurityMember(s, services, 0);
    SecurityMember(s, services, 1);
    SecurityMember(s, services, 2);
    SecurityMember(s, services, 3);
    SecurityMember(s, services, 4);
    SecurityMember(s, services, 5);
    SecurityMember(s, services, 6);
  }

  /** The nameservice, its proxy provider and its NameNodes. */
  lemma ServiceTexts(s: Settings, services: seq<string>)
    requires s.Usable() && DnsNames(s)
    ensures var d := HdfsSiteDocument(s, services);
            && Says(d, "dfs.nameservices", s.instanceName)
            && Says(d, "dfs.client.failover.proxy.provider." + s.instanceName,
                    "org.apache.hadoop.hdfs.server.namenode.ha.ConfiguredFailoverProxyProvider")
            && Says(d, "dfs.ha.namenodes." + s.instanceName, Join(PodNameList(s.StatefulSet(), s.replicas), ","))
            && Says(d, "dfs.replication", FormatInt(s.replication))
  {
    assert MakeServiceId(s)[0] in MakeServiceId(s) && MakeServiceId(s)[1] in MakeServiceId(s);
    assert MakeHdfsReplication(s) in [MakeHdfsReplication(s)] && MakeNameNodeHosts(s) in [MakeNameNodeHosts(s)];
    SaysMember(s, services, MakeServiceId(s)[0]);
    SaysMember(s, services, MakeServiceId(s)[1]);
    SaysMember(s, services, MakeHdfsReplication(s));
    SaysMember(s, services, MakeNameNodeHosts(s));
  }

  /** The journal and the directories. */
  lemma StorageTexts(s: Settings, services: seq<string>)
    requires s.Usable() && DnsNames(s)
    ensures var d := HdfsSiteDocument(s, services);
            && Says(d, "dfs.namenode.shared.edits.dir", "qjournal://" + Join(services, ";") + "/" + s.instanceName)
            && Says(d, "dfs.journalnode.edits.dir", "/kubedoop/data/journalnode")
            && Says(d, "dfs.namenode.name.dir", "/kubedoop/data/namenode")
  {
    SharedEditsName();
    JournalUrlText(services, s.instanceName);
    var edits, dirs := MakeSharedEditDir(s, services), MakeRoleNodeDataDir();
    assert edits in [edits] && dirs[0] in dirs && dirs[1] in dirs;
    SaysMember(s, services, edits);
    SaysMember(s, services, dirs[0]);
    SaysMember(s, services, dirs[1]);
  }

  lemma KeyText(family: string, instanceName: string, id: string)
    ensures KeyFor(family, instanceName, id) == family + instanceName + "." + id
  {
  }

  /** Each listed NameNode's addresses and directory: its host name with the port of the scheme in
      use, and with the RPC port. */
  lemma AddressTexts(s: Settings, services: seq<string>, id: string)
    requires s.Usable() && DnsNames(s) && id in PodNameList(s.StatefulSet(), s.replicas)
    ensures var d := HdfsSiteDocument(s, services);
            var host := id + "." + s.StatefulSet() + "." + s.nameSpace + ".svc.";
            && Says(d, "dfs.namenode.rpc-address." + s.instanceName + "." + id, host + s.clusterDomain + ":8020")
            && (s.config.tls ==>
                  Says(d, "dfs.namenode.https-address." + s.instanceName + "." + id, host + s.config.clusterDomain + ":9871"))
            && (!s.config.tls ==>
                  Says(d, "dfs.namenode.http-address." + s.instanceName + "." + id, host + s.config.clusterDomain + ":9870"))
            && Says(d, "dfs.namenode.name.dir." + s.instanceName + "." + id, "/kubedoop/data/namenode")
  {
    AddressesPresent(s, services, id);
    KeyText(RPC_ADDRESS, s.instanceName, id);
    KeyText(HttpFamily(s.config), s.instanceName, id);
    KeyText(NAME_DIRS, s.instanceName, id);
    SaysMember(s, services, Property(KeyFor(RPC_ADDRESS, s.instanceName, id), HostOf(id, s, s.clusterDomain) + ":8020"));
    SaysMember(s, services, Property(KeyFor(HttpFamily(s.config), s.instanceName, id),
                                     HostOf(id, s, s.config.clusterDomain) + if s.config.tls then ":9871" else ":9870"));
    NameserviceResolves(s, services, id);
  }

  /** And no address of the scheme that is not in use, for any id. */
  lemma OtherSchemeAbsent(s: Settings, services: seq<string>, id: string)
    requires s.Usable() && DnsNames(s)
    ensures var m := Denote(HdfsSiteDocument(s, services));
            && (s.config.tls ==> "dfs.namenode.http-address." + s.instanceName + "." + id !in m)
            && (!s.config.tls ==> "dfs.namenode.https-address." + s.instanceName + "." + id !in m)
  {
    var d := HdfsSiteDocument(s, services);
    var other := if s.config.tls then HTTP_ADDRESS else HTTPS_ADDRESS;
    KeyText(other, s.instanceName, id);
    var key := KeyFor(other, s.instanceName, id);
    if key in Denote(d) {
      var p := PresentName(d, key);
      HttpHasOwner(s, services, p);
      FamiliesDiffer(key);
    }
  }

  lemma FamiliesDiffer(name: string)
    ensures !(HTTP_ADDRESS <= name && HTTPS_ADDRESS <= name)
  {
    assert HTTP_ADDRESS[17] != HTTPS_ADDRESS[17];
  }
}
