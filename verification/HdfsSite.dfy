/** The hdfs-site.xml generator shared by all roles. */
module HdfsSite {
  import opened Text
  import opened PodNames
  import opened XmlProperties
  import opened XmlDocuments
  import opened ClusterComponents
  import opened HdfsKeys
  import opened Templates

  const HTTP_PORT := 9870
  const HTTPS_PORT := 9871
  const RPC_PORT := 8020
  const PROVIDER := "org.apache.hadoop.hdfs.server.namenode.ha.ConfiguredFailoverProxyProvider"
  const NAME_NODE_ROOT := "/kubedoop/data/namenode"
  const JOURNAL_NODE_ROOT := "/kubedoop/data/journalnode"

  datatype ClusterConfig = ClusterConfig(tls: bool, kerberos: bool, clusterDomain: string)

  /** The generator's fields other than the accumulated properties. */
  datatype Settings = Settings(
    instanceName: string, groupName: string, replicas: int, nameSpace: string, clusterDomain: string,
    replication: int, config: ClusterConfig, nameNode: Components)
  {
    /** The generator's own group must be a NameNode group too, whatever role it serves. */
    predicate Usable() {
      groupName in nameNode && replicas >= 0
    }

    function StatefulSet(): string
      requires groupName in nameNode
    {
      nameNode[groupName].fullName
    }
  }

  // ----- The parts of the document -----

  const TEMPLATE: Document := [
    Property(REGISTERED_HOSTNAME, "${env.POD_ADDRESS}"),
    Property(REGISTERED_IPC_PORT, "${env.IPC_PORT}"),
    Property(REGISTERED_PORT, "${env.DATA_PORT}"),
    Property(AUTOMATIC_FAILOVER, "true"),
    Property(FENCING_METHODS, "shell(/bin/true)"),
    Property(NAMENODE_ID, "${env.POD_NAME}"),
    Property(UNSAFE_REGISTRATION, "true")]

  function SecurityHdfsSiteXml(): seq<Property>
  {
    [Property(BLOCK_TOKEN, "true"), Property(HTTP_POLICY, "HTTPS_ONLY"), Property(KEYTAB_RENEWAL, "true"),
     Property(HTTPS_SERVER_KEYSTORE, "ssl-server.xml"), Property(HTTPS_CLIENT_KEYSTORE, "ssl-client.xml"),
     Property(ENCRYPT_TRANSFER, "true"), Property(TRANSFER_PROTECTION, "privacy")]
  }

  function TlsHdfsSiteXml(config: ClusterConfig): seq<Property>
  {
    if config.tls then [Property(REGISTERED_HTTPS_PORT, "${env.HTTPS_PORT}")]
    else [Property(REGISTERED_HTTP_PORT, "${env.HTTP_PORT}")]
  }

  function MakeServiceId(s: Settings): seq<Property>
  {
    [Property(NAMESERVICES, s.instanceName), Property(PROXY_PROVIDER + s.instanceName, PROVIDER)]
  }

  function MakeHdfsReplication(s: Settings): Property
  {
    Property(REPLICATION, FormatInt(s.replication))
  }

  function MakeNameNodeHosts(s: Settings): Property
    requires s.Usable()
  {
    Property(HA_NAMENODES + s.instanceName, Join(PodNameList(s.StatefulSet(), s.replicas), ","))
  }

  function HttpFamily(config: ClusterConfig): string
  {
    if config.tls then HTTPS_ADDRESS else HTTP_ADDRESS
  }

  function HttpDomain(s: Settings): string
    requires s.Usable()
  {
    DnsDomain(s.StatefulSet(), s.nameSpace, s.config.clusterDomain, if s.config.tls then HTTPS_PORT else HTTP_PORT)
  }

  function MakeNameNodeHttp(s: Settings): seq<Property>
    requires s.Usable()
  {
    XmlContent(s.replicas, KeyTemplate(HttpFamily(s.config), s.instanceName, s.StatefulSet()), ValueTemplate(s.StatefulSet(), HttpDomain(s)))
  }

  function RpcDomain(s: Settings): string
    requires s.Usable()
  {
    DnsDomain(s.StatefulSet(), s.nameSpace, s.clusterDomain, RPC_PORT)
  }

  function MakeNameNodeRpc(s: Settings): seq<Property>
    requires s.Usable()
  {
    XmlContent(s.replicas, KeyTemplate(RPC_ADDRESS, s.instanceName, s.StatefulSet()), ValueTemplate(s.StatefulSet(), RpcDomain(s)))
  }

  function MakeNameNodeNameDir(s: Settings): seq<Property>
    requires s.Usable()
  {
    XmlContent(s.replicas, KeyTemplate(NAME_DIRS, s.instanceName, s.StatefulSet()), NAME_NODE_ROOT)
  }

  function MakeSharedEditDir(s: Settings, services: seq<string>): Property
  {
    Property(SHARED_EDITS, CreateJournalUrl(services, s.instanceName))
  }

  function MakeRoleNodeDataDir(): seq<Property>
  {
    [Property(JOURNAL_DIR, JOURNAL_NODE_ROOT), Property(NAME_DIR, NAME_NODE_ROOT)]
  }

  /** What one call of Generate adds. `services` are the JournalNode endpoints in the order of that call. */
  function Generated(s: Settings, services: seq<string>): (ps: seq<Property>)
    requires s.Usable()
  {
    MakeServiceId(s) + [MakeHdfsReplication(s)] + [MakeNameNodeHosts(s)] + MakeNameNodeHttp(s) + MakeNameNodeRpc(s)
    + MakeNameNodeNameDir(s) + [MakeSharedEditDir(s, services)] + MakeRoleNodeDataDir()
  }

  function SecurityFor(config: ClusterConfig): seq<Property>
  {
    if config.kerberos then SecurityHdfsSiteXml() else []
  }

  /** What the roles add before generating. */
  function EnabledFor(config: ClusterConfig): seq<Property>
  {
    SecurityFor(config) + TlsHdfsSiteXml(config)
  }

  class NameNodeHdfsSiteXmlGenerator {
    const settings: Settings
    var properties: seq<Property>

    constructor (settings: Settings)
      ensures this.settings == settings && properties == []
    {
      this.settings := settings;
      properties := [];
    }

    method EnablerKerberos() returns (g: NameNodeHdfsSiteXmlGenerator)
      modifies this
      ensures g == this
      ensures properties == old(properties) + SecurityFor(settings.config)
    {
      if settings.config.kerberos {
        properties := properties + SecurityHdfsSiteXml();
      } else {
        assert properties + [] == properties;
      }
      g := this;
    }

    method EnableHttps() returns (g: NameNodeHdfsSiteXmlGenerator)
      modifies this
      ensures g == this
      ensures properties == old(properties) + TlsHdfsSiteXml(settings.config)
    {
      properties := properties + TlsHdfsSiteXml(settings.config);
      g := this;
    }

    /** Appends everything to the accumulated properties and merges those into the template. */
    method Generate(services: seq<string>) returns (d: Outcome<Document>)
      modifies this
      ensures !settings.Usable() ==> d.Panicked?
      ensures settings.Usable() ==>
                properties == old(properties) + Generated(settings, services) && d == Append(TEMPLATE, properties)
    {
      ghost var before := properties;
      properties := properties + MakeServiceId(settings);
      properties := properties + [MakeHdfsReplication(settings)];
      if settings.groupName !in settings.nameNode {
        return Panicked;
      }
      var pods := CreatePodNamesByReplicas(settings.replicas, settings.StatefulSet());
      if pods.Panicked? {
        return Panicked;
      }
      properties := properties + [Property(HA_NAMENODES + settings.instanceName, Join(pods.value, ","))];
      var http := CreateXmlContentByReplicas(settings.replicas,
        KeyTemplate(HttpFamily(settings.config), settings.instanceName, settings.StatefulSet()),
        ValueTemplate(settings.StatefulSet(), HttpDomain(settings)));
      if http.Panicked? {
        return Panicked;
      }
      properties := properties + http.value;
      var rpc := CreateXmlContentByReplicas(settings.replicas,
        KeyTemplate(RPC_ADDRESS, settings.instanceName, settings.StatefulSet()),
        ValueTemplate(settings.StatefulSet(), RpcDomain(settings)));
      if rpc.Panicked? {
        return Panicked;
      }
      properties := properties + rpc.value;
      var dirs := CreateXmlContentByReplicas(settings.replicas,
        KeyTemplate(NAME_DIRS, settings.instanceName, settings.StatefulSet()), NAME_NODE_ROOT);
      if dirs.Panicked? {
        return Panicked;
      }
      properties := properties + dirs.value;
      properties := properties + [MakeSharedEditDir(settings, services)];
      properties := properties + MakeRoleNodeDataDir();
      AppendedInOrder(before, settings, services);
      var dom := new XmlConfiguration(TEMPLATE);
      d := dom.String(properties);
    }
  }

  /** Embeds the NameNode generator, adds a config map and has a Generate of its own. The methods it
      inherits return the embedded object, not this one. */
  class DataNodeHdfsSiteXmlGenerator {
    const inner: NameNodeHdfsSiteXmlGenerator
    const dataNodeConfig: map<string, string>

    constructor (settings: Settings, dataNodeConfig: map<string, string>)
      ensures fresh(inner) && inner.settings == settings && inner.properties == []
      ensures this.dataNodeConfig == dataNodeConfig
    {
      inner := new NameNodeHdfsSiteXmlGenerator(settings);
      this.dataNodeConfig := dataNodeConfig;
    }

    method EnablerKerberos() returns (g: NameNodeHdfsSiteXmlGenerator)
      modifies inner
      ensures g == inner && inner.properties == old(inner.properties) + SecurityFor(inner.settings.config)
    {
      g := inner.EnablerKerberos();
    }

    method EnableHttps() returns (g: NameNodeHdfsSiteXmlGenerator)
      modifies inner
      ensures g == inner && inner.properties == old(inner.properties) + TlsHdfsSiteXml(inner.settings.config)
    {
      g := inner.EnableHttps();
    }

    /** The inner document, overridden by the config map. */
    method Generate(services: seq<string>) returns (d: Outcome<Document>)
      modifies inner
      ensures !inner.settings.Usable() ==> d.Panicked?
      ensures inner.settings.Usable() ==>
                && inner.properties == old(inner.properties) + Generated(inner.settings, services)
                && var document := Append(TEMPLATE, inner.properties);
                   (d.Returned? <==> document.Returned?)
                   && (d.Returned? ==> document.value <= d.value && Denote(d.value) == Denote(document.value) + dataNodeConfig)
    {
      d := inner.Generate(services);
      if d.Returned? {
        var overridden := AppendXmlContent(d.value, dataNodeConfig);
        d := Returned(overridden);
      }
    }
  }

  lemma AppendedInOrder(before: seq<Property>, s: Settings, services: seq<string>)
    requires s.Usable()
    ensures before + MakeServiceId(s) + [MakeHdfsReplication(s)] + [MakeNameNodeHosts(s)] + MakeNameNodeHttp(s) + MakeNameNodeRpc(s)
            + MakeNameNodeNameDir(s) + [MakeSharedEditDir(s, services)] + MakeRoleNodeDataDir()
            == before + Generated(s, services)
  {
  }
}
