/** The property names of hdfs-site.xml. A few characters at fixed positions tell the names (and
    the families of names that end in a cluster's or pod's own name) apart. Long names are written
    in pieces, so that the verifier finds such a character without walking the whole literal. */
module HdfsKeys {

  const NAMESERVICES := "dfs.nameservices"
  const PROXY_PROVIDER := "dfs.client.failover.proxy.provider."
  const REPLICATION := "dfs.replication"
  const HA_NAMENODES := "dfs.ha.namenodes."
  const HTTP_ADDRESS := "dfs.namenode.http-address."
  const HTTPS_ADDRESS := "dfs.namenode.https-address."
  const RPC_ADDRESS := "dfs.namenode.rpc-address."
  const NAME_DIRS := "dfs.namenode.name.dir."
  const SHARED_EDITS := "dfs.namenode." + "shared.edits.dir"
  const JOURNAL_DIR := "dfs.journalnode.edits.dir"
  const NAME_DIR := "dfs.namenode.name.dir"

  const REGISTERED_HOSTNAME := "dfs.datanode." + "registered." + "hostname"
  const REGISTERED_IPC_PORT := "dfs.datanode." + "registered." + "ipc.port"
  const REGISTERED_PORT := "dfs.datanode." + "registered." + "port"
  const AUTOMATIC_FAILOVER := "dfs.ha." + "automatic-failover.enabled"
  const FENCING_METHODS := "dfs.ha." + "fencing.methods"
  const NAMENODE_ID := "dfs.ha.namenode.id"
  const UNSAFE_REGISTRATION := "dfs.namenode.datanode." + "registration.unsafe.allow-address-override"
  const REGISTERED_HTTPS_PORT := "dfs.datanode." + "registered." + "https.port"
  const REGISTERED_HTTP_PORT := "dfs.datanode." + "registered." + "http.port"
  const DATA_DIR := "dfs.datanode.data.dir"

  const BLOCK_TOKEN := "dfs.block." + "access.token.enable"
  const HTTP_POLICY := "dfs.http.policy"
  const KEYTAB_RENEWAL := "hadoop.kerberos." + "keytab.login.autorenewal.enabled"
  const HTTPS_SERVER_KEYSTORE := "dfs.https.server." + "keystore.resource"
  const HTTPS_CLIENT_KEYSTORE := "dfs.https.client." + "keystore.resource"
  const ENCRYPT_TRANSFER := "dfs.encrypt." + "data.transfer"
  const TRANSFER_PROTECTION := "dfs.data." + "transfer.protection"

  datatype Kind =
    | Nameservices | ProxyProvider | Replication | HaNameNodes | HttpAddress | RpcAddress | NameDirs
    | SharedEdits | JournalDir | NameDir
    | RegisteredHostname | RegisteredIpcPort | RegisteredPort | AutomaticFailover | FencingMethods
    | NameNodeIdKey | UnsafeRegistration | RegisteredWebPort | DataDir
    | BlockToken | HttpPolicy | KeytabRenewal | HttpsServerKeystore | HttpsClientKeystore
    | EncryptTransfer | TransferProtection
    | Other

  /** The kinds in the order in which their names stand in the document. */
  function Rank(k: Kind): (r: nat)
  {
    match k
    case RegisteredHostname => 0 case RegisteredIpcPort => 1 case RegisteredPort => 2 case AutomaticFailover => 3
    case FencingMethods => 4 case NameNodeIdKey => 5 case UnsafeRegistration => 6
    case BlockToken => 7 case HttpPolicy => 8 case KeytabRenewal => 9 case HttpsServerKeystore => 10
    case HttpsClientKeystore => 11 case EncryptTransfer => 12 case TransferProtection => 13
    case RegisteredWebPort => 14
    case Nameservices => 15 case ProxyProvider => 16 case Replication => 17 case HaNameNodes => 18
    case HttpAddress => 19 case RpcAddress => 20 case NameDirs => 21 case SharedEdits => 22
    case JournalDir => 23 case NameDir => 24
    case DataDir => 25
    case Other => 26
  }

  function At(s: string, i: nat): char
  {
    if i < |s| then s[i] else ' '
  }

  /** The kind of a name, from the characters at which the names differ. */
  function KindOf(s: string): Kind
  {
    match At(s, 4)
    case 'c' => ProxyProvider
    case 'r' => Replication
    case 'j' => JournalDir
    case 'b' => BlockToken
    case 'o' => KeytabRenewal
    case 'e' => EncryptTransfer
    case 'd' => if At(s, 8) == '.' then TransferProtection else if At(s, 13) == 'd' then DataDir else RegisteredKind(s)
    case 'h' => if At(s, 5) == 'a' then HaKind(s) else HttpKind(s)
    case 'n' => if At(s, 8) == 's' then Nameservices else NameNodeKind(s)
    case _ => Other
  }

  function RegisteredKind(s: string): Kind
  {
    match At(s, 24)
    case 'i' => RegisteredIpcPort
    case 'p' => RegisteredPort
    case 'h' => if At(s, 25) == 'o' then RegisteredHostname else RegisteredWebPort
    case _ => Other
  }

  function HaKind(s: string): Kind
  {
    match At(s, 7)
    case 'a' => AutomaticFailover
    case 'f' => FencingMethods
    case 'n' => if At(s, 15) == 's' then HaNameNodes else NameNodeIdKey
    case _ => Other
  }

  function HttpKind(s: string): Kind
  {
    if At(s, 8) == '.' then HttpPolicy
    else if At(s, 10) == 's' then HttpsServerKeystore
    else if At(s, 10) == 'c' then HttpsClientKeystore
    else Other
  }

  function NameNodeKind(s: string): Kind
  {
    match At(s, 13)
    case 'h' => HttpAddress
    case 'r' => RpcAddress
    case 's' => SharedEdits
    case 'd' => UnsafeRegistration
    case 'n' => if At(s, 21) == '.' then NameDirs else NameDir
    case _ => Other
  }

  lemma FamilyKinds(suffix: string)
    ensures KindOf(PROXY_PROVIDER + suffix) == ProxyProvider
    ensures KindOf(HA_NAMENODES + suffix) == HaNameNodes
    ensures KindOf(NAME_DIRS + suffix) == NameDirs
  {
  }

  lemma AddressKinds(suffix: string)
    ensures KindOf(HTTP_ADDRESS + suffix) == HttpAddress
    ensures KindOf(HTTPS_ADDRESS + suffix) == HttpAddress
    ensures KindOf(RPC_ADDRESS + suffix) == RpcAddress
  {
  }

  lemma GeneratedKinds()
    ensures KindOf(NAMESERVICES) == Nameservices
    ensures KindOf(REPLICATION) == Replication
    ensures KindOf(SHARED_EDITS) == SharedEdits
    ensures KindOf(JOURNAL_DIR) == JournalDir
    ensures KindOf(NAME_DIR) == NameDir
  {
  }

  lemma TemplateKinds()
    ensures KindOf(REGISTERED_HOSTNAME) == RegisteredHostname
    ensures KindOf(REGISTERED_IPC_PORT) == RegisteredIpcPort
    ensures KindOf(REGISTERED_PORT) == RegisteredPort
  {
  }

  lemma HaKinds()
    ensures KindOf(AUTOMATIC_FAILOVER) == AutomaticFailover
    ensures KindOf(FENCING_METHODS) == FencingMethods
    ensures KindOf(NAMENODE_ID) == NameNodeIdKey
    ensures KindOf(UNSAFE_REGISTRATION) == UnsafeRegistration
  {
  }

  lemma SecurityKinds()
    ensures KindOf(BLOCK_TOKEN) == BlockToken
    ensures KindOf(HTTP_POLICY) == HttpPolicy
    ensures KindOf(KEYTAB_RENEWAL) == KeytabRenewal
  {
  }

  lemma TransferKinds()
    ensures KindOf(HTTPS_SERVER_KEYSTORE) == HttpsServerKeystore
    ensures KindOf(HTTPS_CLIENT_KEYSTORE) == HttpsClientKeystore
    ensures KindOf(ENCRYPT_TRANSFER) == EncryptTransfer
    ensures KindOf(TRANSFER_PROTECTION) == TransferProtection
  {
  }

  lemma PortAndDataKinds()
    ensures KindOf(REGISTERED_HTTPS_PORT) == RegisteredWebPort
    ensures KindOf(REGISTERED_HTTP_PORT) == RegisteredWebPort
    ensures KindOf(DATA_DIR) == DataDir
  {
  }
}
