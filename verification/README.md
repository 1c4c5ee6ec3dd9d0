# Verified model of the HDFS operator's hard core

A Dafny model of the parts of a Kubernetes operator for HDFS where several pieces of code, or
several pods, have to fit together. `dafny verify dfyconfig.toml` checks all of it.

- **NameNode bootstrap** (`FormatScripts.dfy`, `Bootstrap.dfy`). The shell scripts of the init
  containers format-namenodes and format-zookeeper, first as one pod runs them, then as a step
  machine over all NameNode pods of all groups. Probes are separate steps whose answers can be
  stale; failover, restart and deletion may happen between any two steps.
- **Waiting for NameNodes** (`WaitForNameNodes.dfy`). The DataNodes' bounded retry loop.
- **Pod names and ids** (`PodNames.dfy`) and **role groups** (`ClusterComponents.dfy`), with the
  JournalNode quorum and the shared-edits URL.
- **Property lists with override** (`XmlProperties.dfy`, `XmlDocuments.dfy`) and **properties
  files** (`PropertiesFile.dfy`, `PropertyOverrides.dfy`). Every list denotes a last-wins map.
- **The hdfs-site.xml generator** (`Templates.dfy`, `HdfsKeys.dfy`, `HdfsSite.dfy`,
  `HdfsSiteProperties.dfy`), its documents as text (`HdfsSiteTexts.dfy`), and from the specification to **every role group's document**
  (`RoleDocuments.dfy`).
- **Discovery addresses** (`Discovery.dfy`, `DiscoveryProperties.dfy`), the discovery document around
  them (`DiscoverySite.dfy`) and **default resources** (`RoleConfig.dfy`).
- `Text.dfy` and `Sequences.dfy` hold the string and sequence facts the rest is built on.

## Hypotheses about the environment

They are written as guards and effects of the steps in `Bootstrap.Enabled` and `Bootstrap.Apply`
and as contracts of the command methods in `FormatScripts.dfy`.

- `-format -noninteractive` takes effect on the volume and the journal together, and fails without
  effect if the journal holds data. It may also fail for other reasons.
- `-bootstrapStandby` copies the namespace of a serving pod of the same group, or fails without effect.
- `-getServiceState` prints `active` only for a pod that is active at that moment; it may print anything
  else at any time. Only `Bootstrap.SteadyActiveIsFound` asks for an answer from every active pod, and
  only `RoleDocuments.WaitAsDataNode` takes it to print no state for an id without an RPC address.
- A NameNode serves only if its volume's namespace is the journal's.
- `-formatZK` exits with 0 after creating the znode and with 2 if the znode exists.
- StatefulSets create a pod only while all lower ordinals of the group serve (the parallel policy is
  commented out in `internal/common/statefulset.go:127-128`), and the two init containers run in the order of
  `internal/controller/name/statefulset_builder.go:96-101`.
- Replica counts do not change during a run.

Iteration over a Go map is an arbitrary choice everywhere: a loop that picks any remaining key, or an
order given as a parameter. The full name of a role group (`GetFullName`) comes from a library that is
not part of this model; it is taken to be `cluster-role-group`, as in
`test/e2e/smoke/simple/hdfs-assert.yaml:12`. Names are DNS labels (section 2.1 of RFC 1123), which is
what the conditions about `%`, `,`, `;` and `/` stand for. The data directories are those that
the comments of `internal/common/hdfs_conf.go:174-186` show.

## Where the code and its intent part

Each of these is proved, with the exact condition under which the code does what is meant.

- `DistinctProperties` stores an index into one list and uses it on another:
  `XmlProperties.DistinctIffFirstsBeforeRepeats`, with failing inputs in `XmlProperties.LateRepeatsAreNotMerged`.
- An empty document swallows the properties appended to it: `XmlDocuments.AppendOverridesIff`.
- The format script looks for an active NameNode, and bootstraps, inside its own group only, so a
  second NameNode group never comes up: `Bootstrap.NoGroupLockedOutIff`, `Bootstrap.CanComeUpIff`.
- The wait script probes the NameNodes of all groups with a document that has addresses for one:
  `RoleDocuments.ProbedIdsHaveAddressesIff`, `RoleDocuments.WaitAsDataNode`.
- A DataNode or JournalNode group whose name is no NameNode group's panics: `RoleDocuments.MakeAllSites`.
- With no NameNode replicas the document lists one empty id without addresses:
  `HdfsSiteProperties.HighAvailabilityClosedIff`.
- The DataNode's `dfs.datanode.data.dir` never reaches its hdfs-site.xml, because the chained calls go
  through methods of the embedded generator: `HdfsSiteProperties.MakeBothDataNodeSites`.
- Replacing entries of a properties file strips a carriage return that concatenation keeps:
  `PropertyOverrides.RoutesAgreeIff`, with failing inputs in `PropertyOverrides.TwoCrsDisagree`.
- Storage given without CPU and memory is dropped. Then the DataNode's volume claim panics
  (`internal/controller/data/statefulset_builder.go:178-180`), and the NameNode's and the JournalNode's
  ask for 10Gi instead: `RoleConfig.DataVolumeSize`.
- A failing RPC pass is swallowed while discovery still lists every id: `DiscoverySite.DiscoveryClosedIff`,
  `DiscoverySite.StoreClosedIff`.
- A nil replica count is no pods for discovery and a panic for the wait script:
  `PodNames.GetPodNames`, `PodNames.NameNodeIds`.
- The wait script ends successfully whether or not the NameNodes got ready: `WaitForNameNodes.Wait`,
  `WaitForNameNodes.WaitInVain`.

## Model

| member | source | states |
|---|---|---|
| `Bootstrap.FormatsAtMostOnce` | internal/controller/name/container/format_namenode.go:108-135 | in every run of a fresh cluster the number of successful `-format` commands is 0 while the journal is empty and exactly 1 afterwards, and every formatted volume carries the journal's namespace |
| `Bootstrap.WriteOnce` | internal/controller/name/container/format_namenode.go:122-135 | over every run a volume's namespace, the journal's namespace and the znode, once written, never change |
| `Bootstrap.ServesFormattedVolume` | internal/controller/name/container/format_namenode.go:122-135 | a pod past format-namenodes, at any time of any run, has a formatted volume, and any two such pods at any two times have the same namespace |
| `Bootstrap.OnlyFirstOrdinalFormats` | internal/common/statefulset.go:127-128 | under ordered start only ordinal 0 of a group ever formats the journal or the znode |
| `Bootstrap.AlreadyFormattedIsTrue` | internal/controller/name/container/format_zk.go:98-100 | whenever the script prints that ZooKeeper is already formatted, the znode exists, and the pod's ordinal is above 0 |
| `Bootstrap.SteadyActiveIsFound` | internal/controller/name/container/format_namenode.go:109-131 | while one pod of the group stays active and the pod's probes print `active` exactly for a pod active at that step, the pod never ends its probe loop without ACTIVE_NAMENODE and never tries to format, across any number of restarts |
| `Bootstrap.LockedOutForGood` | internal/controller/name/container/format_namenode.go:214-216 | once the journal is formatted, a group has a formatted volume in a later state of the run if and only if it has one now |
| `Bootstrap.CanComeUpIff` | internal/controller/name/container/format_namenode.go:214-216 | some run ends with a pod of the group serving if and only if the group has a formatted volume now, or the journal is empty and the group has a pod |
| `Bootstrap.SecondGroupLockedOut` | internal/controller/name/container/format_namenode.go:214-216 | in every cluster with two NameNode groups, one of them with a pod, there is a run after which that group is formatted and no run makes the other serve |
| `Bootstrap.NoGroupLockedOutIff` | internal/controller/name/container/format_namenode.go:214-216 | in every reachable state every group with pods can come up, if and only if at most one group of the specification has pods |
| `Bootstrap.WholeGroupCanComeUpIff` | internal/controller/name/container/format_zk.go:83-100 | under exactly the condition for one pod to serve, some run makes every pod of the group serve, ordinal 0 as the active NameNode and the others on standby, each through its own probes, bootstrap and format-zookeeper |
| `Bootstrap.ProbesChooseFirstActive` | internal/controller/name/container/format_namenode.go:109-120 | in every run, whatever other pods do between a pod's probes, the pod is at the next id while no answer was `active`, and otherwise has chosen exactly what the script's loop chooses from the same answers |
| `Bootstrap.ChosenWasActive` | internal/controller/name/container/format_namenode.go:109-120 | in every run an ACTIVE_NAMENODE that a pod has chosen names a pod of its own group that was active after the pod's last creation, restart or failed command |
| `Bootstrap.LoopEntered` | internal/controller/name/container/format_namenode.go:109-120 | a pod in its probe loop started it at the first id at that moment, and has only probed since |
| `Bootstrap.PodNameOfText` | internal/controller/name/container/format_namenode.go:214-216 | the ids a pod probes and chooses are cluster, `namenode`, group and ordinal, joined by dashes |
| `Bootstrap.FailureStartsOver` | internal/controller/name/container/format_namenode.go:122-131 | whichever command the script decided on can fail, leaves volume and journal as they were, and a run leads back to a decision without an active peer |
| `Bootstrap.RestartedPodServesAgain` | internal/controller/name/container/format_namenode.go:132-135 | a killed pod with a formatted volume probes again from the top, keeps its volume and can serve again |
| `Bootstrap.StoppedPodServesAgain` | internal/controller/name/container/format_namenode.go:132-135 | a NameNode process that dies can serve again on standby with nothing else changed |
| `Bootstrap.FormatZkRepeats` | internal/controller/name/container/format_zk.go:83-97 | any other exit code of format-zookeeper changes nothing, and the command can be repeated |
| `FormatScripts.CheckForActive` | internal/controller/name/container/format_namenode.go:109-120 | ACTIVE_NAMENODE is the first id whose sample is the text `active`, and unset exactly if there is none |
| `FormatScripts.FormatNameNode` | internal/controller/name/container/format_namenode.go:108-135 | in all three branches success leaves a formatted volume; a formatted volume is untouched; without an active sample it formats exactly if the journal is empty and the command does not fail otherwise; with one it takes a peer's namespace; failure has no effect |
| `FormatScripts.FormatZookeeper` | internal/controller/name/container/format_zk.go:83-100 | only ordinal 0 touches ZooKeeper; for it exit code 0 means the znode exists, and other failures are passed on without effect |
| `PodNames.OrdinalRecovered` | internal/controller/name/container/format_zk.go:84-84 | stripping a pod name to its last dash gives exactly the ordinal, whatever the StatefulSet is called, so the test holds exactly for ordinal 0 |
| `PodNames.NameNodeIdInjective` | internal/controller/discovery.go:149-154 | pod ids are injective in group and ordinal for all group names |
| `PodNames.CreatePodNamesByReplicas` | internal/common/util.go:101-108 | the list holds ordinals 0 to n-1 in order; a negative count panics |
| `PodNames.GetPodNames` | internal/controller/discovery.go:143-160 | in any group order the result holds every pod of every counted group exactly once and nothing else |
| `PodNames.NameNodeIds` | internal/controller/data/container/wait_for_namenodes.go:143-162 | it panics exactly if some replica count is nil or negative, and else joins a list of every pod exactly once |
| `PodNames.ListsAgree` | internal/controller/data/container/wait_for_namenodes.go:143-162 | discovery's and the wait script's lists are equal as multisets, for all iteration orders |
| `PodNames.GroupsPartitionIds` | internal/controller/name/container/format_namenode.go:214-216 | the per-group lists of the format script and of `dfs.ha.namenodes` partition the list of all ids |
| `WaitForNameNodes.Wait` | internal/controller/data/container/wait_for_namenodes.go:93-116 | it is ready exactly if in one of twelve rounds every id printed `active` or `standby`, stops in the first such round, makes that many rounds of probes, at most twelve times the number of ids, and exits with 0 either way |
| `WaitForNameNodes.WaitInVain` | internal/controller/data/container/wait_for_namenodes.go:95-116 | with one NameNode that is never ready, whatever the others do, the script makes all twelve rounds of probes and exits with 0, not ready |
| `WaitForNameNodes.SteadyNameNodesStopTheWait` | internal/controller/data/container/wait_for_namenodes.go:95-112 | if all NameNodes answer from some time on, the script stops in the first of the twelve rounds that starts after it, or earlier |
| `XmlProperties.DistinctProperties` | internal/util/xml_util.go:42-60 | the loop returns first-occurrence order with last values if and only if no name that first occurs after a repeat recurs |
| `XmlProperties.DistinctIffFirstsBeforeRepeats` | internal/util/xml_util.go:49-59 | for every collected list three things hold under that one condition and otherwise none: the result is the intended merge, it denotes the same map as the list, it holds every name of the list |
| `XmlProperties.DuplicateFreeListsMerge` | internal/util/xml_util.go:43-45 | the condition always holds for two lists without repeated names |
| `XmlProperties.LateRepeatsAreNotMerged` | internal/util/xml_util.go:53-58 | lists outside the condition on which an entry is lost, and on which the call panics |
| `XmlProperties.MergedDenotes` | internal/util/xml_util.go:41-42 | the intended merge denotes the same last-wins map as the list and repeats no name |
| `XmlDocuments.XmlConfiguration.String` | internal/util/xml_util.go:24-39 | the document becomes and returns the merge, unless it is empty or the merge panics |
| `XmlDocuments.AppendOverridesIff` | internal/util/xml_util.go:24-60 | for all lists the result denotes the overridden map if and only if no name that first occurs after a repeat recurs, or, for an empty document, nothing is added |
| `XmlDocuments.DuplicateFreeAppendIff` | internal/util/xml_util.go:24-27 | on lists without repeated names it never panics, and overrides if and only if the document is not empty or nothing is added |
| `XmlDocuments.AppendAllComposes` | internal/util/xml_util.go:81-88 | a chain of merges never panics, repeats no name, keeps the original names in place and denotes the left-to-right composition of the overrides |
| `XmlDocuments.AppendXmlContent` | internal/util/configuration_util.go:103-128 | in any iteration order the document is kept as a prefix, each override is appended once, and the result denotes the overridden map |
| `XmlDocuments.MergeAndAppendAgree` | internal/util/configuration_util.go:103-128 | merging and append-only overriding of a non-empty document denote the same map |
| `XmlDocuments.RepeatedBatchesMerge` | internal/common/hdfs_conf.go:107-117 | a document, some properties and any number of batches with the same names merge into the document, the properties and the last batch |
| `PropertiesFile.ScanProperties` | internal/util/configuration_util.go:79-99 | the loop computes the scan of the text, with the error of its first bad line |
| `PropertiesFile.CommentIsSkipped` | internal/util/configuration_util.go:84-85 | a line starting with `#` is skipped |
| `PropertiesFile.BlankIsSkipped` | internal/util/configuration_util.go:84-85 | a blank line, with or without a carriage return, is skipped |
| `PropertiesFile.LineScansIff` | internal/util/configuration_util.go:79-99 | any other line is a property exactly if it holds one `=`, the error else names it, and from 65536 characters on it is too long |
| `PropertiesFile.ScanConcat` | internal/util/configuration_util.go:50-58 | a text, a newline and another text scan to both scans in order, errors included |
| `PropertiesFile.ScanPrint` | internal/util/configuration_util.go:71-98 | printing and scanning printable entries strips one carriage return from each value and changes nothing else |
| `PropertiesFile.RoundTripIff` | internal/util/configuration_util.go:71-98 | a list survives printing and scanning if and only if no name or value holds `=` or a newline, no name starts with `#`, no value ends in a carriage return and every line fits the scanner |
| `PropertyOverrides.PropertyList.OverrideProperties` | internal/util/configuration_util.go:130-150 | in any iteration order every entry keeps its place, only the visible value of an overridden name changes, and the new names follow once each |
| `PropertyOverrides.OverriddenDenotes` | internal/util/configuration_util.go:130-150 | the overridden list denotes the overridden map |
| `PropertyOverrides.OverriddenLength` | internal/util/configuration_util.go:139-148 | the list grows by exactly the number of new names |
| `PropertyOverrides.OverrideTwice` | internal/util/configuration_util.go:130-150 | a second application changes nothing, in whatever order |
| `PropertyOverrides.OverridePropertiesFileContent` | internal/util/configuration_util.go:61-77 | it fails exactly if the text does not scan, and else prints an overridden scan of the text |
| `PropertyOverrides.ScanCommutesWithOverride` | internal/util/configuration_util.go:61-77 | the printed text scans to the overridden list, and overriding it again gives the same text |
| `PropertyOverrides.MakePropertiesFileContent` | internal/util/configuration_util.go:39-48 | it prints every entry of the map once, in some order, and a map of clean entries scans back to itself |
| `PropertyOverrides.RoutesAgreeIff` | internal/util/configuration_util.go:50-77 | for all iteration orders both override routes give texts that scan, and to the same map if and only if no value that stays visible ends in a carriage return |
| `PropertyOverrides.TwoCrsDisagree` | internal/util/configuration_util.go:50-77 | on every line whose value ends in two carriage returns and is not overridden the two routes give texts that scan to different maps |
| `PropertyOverrides.RoutesDisagree` | internal/util/configuration_util.go:50-77 | on such a line and with nothing to override, concatenation keeps one of the two carriage returns and replacement keeps none |
| `PropertyOverrides.RoutesDisagreeOnText` | internal/util/configuration_util.go:71-98 | the text `a=b` with two carriage returns is one |
| `ClusterComponents.ClusterComponentsInfo.PopulateClusterComponents` | internal/common/cluster_components.go:10-62 | it panics exactly if some group has no replica count, and else adds every group of every role under its own name to what the maps held |
| `ClusterComponents.GetReplicas` | internal/common/cluster_components.go:98-118 | the summed total is the keyed group's count, or 0 if there is none |
| `ClusterComponents.GetJournalNodeServicesForSharedEdits` | internal/common/cluster_components.go:130-149 | in any iteration order the result is the text cluster, `-journalnode-`, group and `:8485` for each JournalNode group, without repetition |
| `ClusterComponents.QuorumsAgree` | internal/common/cluster_components.go:130-149 | any two such results are equal as multisets |
| `ClusterComponents.JournalUrlParsesIff` | internal/common/util.go:77-79 | the URL parses back to its endpoints and the journal's name, if and only if there is an endpoint |
| `ClusterComponents.SharedEditsNameQuorum` | internal/common/util.go:77-79 | the URL of a cluster with JournalNodes starts with `qjournal://` and reads back as exactly those texts |
| `Templates.CreateXmlContentByReplicas` | internal/common/util.go:114-135 | one property for each ordinal in order, formatted from both templates; a value template without `%d` is taken as it is; a negative count panics |
| `Templates.KeyTwice` | internal/common/hdfs_conf.go:262-264 | for names without a percent sign the twice formatted key is the family, the nameservice and the pod's id |
| `Templates.ValueTwice` | internal/common/hdfs_conf.go:238-239 | likewise the twice formatted value is the pod's id and its domain |
| `Templates.DnsDomainText` | internal/common/util.go:96-98 | the domain is service, namespace, `svc`, cluster domain and port |
| `HdfsSite.NameNodeHdfsSiteXmlGenerator.Generate` | internal/common/hdfs_conf.go:107-117 | it panics if the group is no NameNode group or the replica count is negative, and else appends everything to the accumulated properties and merges those into the template |
| `HdfsSite.DataNodeHdfsSiteXmlGenerator.Generate` | internal/common/hdfs_conf.go:466-470 | it panics exactly when the embedded generator does, and else extends that generator's document to one that denotes it overridden by the config map |
| `HdfsSiteProperties.DocumentPart` | internal/common/hdfs_conf.go:107-117 | for all names, replica counts, TLS and Kerberos settings the document repeats no name |
| `HdfsSiteProperties.GenerateIsRepeatable` | internal/common/hdfs_conf.go:107-117 | every call of Generate, after any number of earlier calls with any JournalNode orders, returns the document of a fresh generator and that call's order |
| `HdfsSiteProperties.MakeHdfsSiteData` | internal/controller/name/configmap.go:107-114 | the chain of calls of the NameNode and JournalNode roles returns the template, the enabled and the generated properties in order, or panics |
| `HdfsSiteProperties.MakeDataNodeHdfsSiteData` | internal/controller/data/configmap.go:88-97 | the DataNode's chain starts at its own generator but returns the NameNode document for every config map, or panics |
| `HdfsSiteProperties.MakeIntendedDataNodeSite` | internal/common/hdfs_conf.go:439-470 | the same calls, each made on the DataNode generator itself, return a document that denotes the NameNode's overridden by the config map |
| `HdfsSiteProperties.MakeBothDataNodeSites` | internal/controller/data/configmap.go:88-104 | made by the chain and as meant, the DataNode's documents denote the same map if and only if every entry of the config map is already a property of the made one; with any `dfs.datanode.data.dir` the meant one holds it and the made one does not |
| `HdfsSiteProperties.HighAvailabilityClosedIff` | internal/common/hdfs_conf.go:208-265 | splitting the value of `dfs.ha.namenodes` gives exactly the ids with one RPC and one web address of the scheme in use, at their own hosts with port 8020 and 9871 or 9870, none dangling, if and only if there is at least one NameNode |
| `HdfsSiteTexts.AddressTexts` | internal/common/tls.go:56-71 | each listed NameNode's RPC address is its host name and `:8020`, its web address the host name and `:9871` with TLS or `:9870` without, spelled out with the names they stand under |
| `HdfsSiteTexts.OtherSchemeAbsent` | internal/common/tls.go:62-68 | no id has an address of the scheme that is not in use |
| `HdfsSiteTexts.ServiceTexts` | internal/common/hdfs_conf.go:133-156 | nameservice, proxy provider, NameNode list and replication, name by name |
| `HdfsSiteTexts.StorageTexts` | internal/common/hdfs_conf.go:165-199 | shared edits and the two data directories, name by name |
| `HdfsSiteTexts.TemplateTexts` | internal/common/hdfs_conf.go:291-321 | the template's seven settings survive every merge, name by name |
| `HdfsSiteTexts.WebPortText` | internal/common/tls.go:105-121 | the registered web port is the environment variable of the scheme in use, and the other name is absent |
| `HdfsSiteTexts.SecurityTexts` | internal/common/kerberos.go:33-64 | each of the seven Kerberos settings has its value exactly with Kerberos and is absent otherwise |
| `HdfsSiteProperties.NameserviceResolves` | internal/common/hdfs_conf.go:133-148 | the declared nameservice has a proxy provider and a NameNode list under its own name, and every listed NameNode has the data directory that the unqualified name gives |
| `HdfsSiteProperties.WebPortFollowsTls` | internal/common/tls.go:105-121 | the document holds the registered HTTPS port exactly with TLS and the HTTP port exactly without |
| `HdfsSiteProperties.SecurityFollowsKerberos` | internal/common/kerberos.go:33-64 | each Kerberos property is in the document exactly if Kerberos is enabled, with its own value |
| `HdfsSiteProperties.DocumentNamesQuorum` | internal/common/hdfs_conf.go:165-172 | the document's shared-edits value starts with `qjournal://` and names exactly one `:8485` endpoint for each JournalNode group |
| `HdfsSiteProperties.DataDirIsMissing` | internal/common/hdfs_conf.go:107-117 | no generated document, for any settings, holds `dfs.datanode.data.dir` |
| `RoleDocuments.MakeRoleSite` | internal/controller/journal/configmap.go:101-114 | whatever the role and its way to find the NameNode count, the document is generated exactly if a NameNode group of that name has a non-negative count, and then it is that group's document with the whole JournalNode quorum |
| `RoleDocuments.MakeDataNodeSite` | internal/common/hdfs_conf.go:445-464 | the same for the DataNode role, whose count is a sum over the NameNode components |
| `RoleDocuments.MakeAllSites` | internal/controller/cluster.go:89-168 | from the specification: the documents of all groups of all roles are generated if and only if every group has a count, no NameNode group a negative one, and each DataNode and JournalNode group bears the name of a NameNode group; each group then gets its own document |
| `RoleDocuments.NameNodeTexts` | internal/common/hdfs_conf.go:208-265 | from the specification alone: host names, ports and directories that the document of any role's group gives for each NameNode |
| `RoleDocuments.ClusterTexts` | internal/common/hdfs_conf.go:133-172 | from the specification alone: nameservice, replication, NameNode list and quorum in the document of any role's group |
| `RoleDocuments.ProbedIdsHaveAddressesIff` | internal/common/hdfs_conf.go:208-265 | every id the wait script probes owns an RPC address in the DataNode's document if and only if no other NameNode group has pods |
| `RoleDocuments.WaitAsDataNode` | internal/controller/data/container/wait_for_namenodes.go:93-116 | if a probe needs an RPC address in the DataNode's own document, then wherever another NameNode group has pods the script makes all twelve rounds in vain and exits with 0; if moreover every addressed NameNode answers, it gets ready if and only if no other group has pods |
| `Discovery.DiscoveryBuilder.GetListenerNameByPodName` | internal/controller/discovery.go:294-313 | the value of the first label with the prefix, or which of the two errors |
| `Discovery.DiscoveryBuilder.GetListenerAddress` | internal/controller/discovery.go:251-289 | result, cache and requests are those of the lookup function, for every history of the store |
| `Discovery.DiscoveryBuilder.GetPort` | internal/controller/discovery.go:243-250 | the loop finds the named port, or fails exactly if there is none |
| `Discovery.DiscoveryBuilder.CreatePortNameAddress` | internal/controller/discovery.go:187-211 | one pass over the pods, with the first error ending it |
| `Discovery.DiscoveryBuilder.CreateConnections` | internal/controller/discovery.go:214-240 | both passes over one cache; a failing web pass fails, a failing RPC pass does not |
| `DiscoveryProperties.LabelOrderIrrelevant` | internal/controller/discovery.go:307-311 | every iteration order of a pod's labels gives the same listener if and only if the labels with the prefix agree |
| `DiscoveryProperties.FirstLabelWins` | internal/controller/discovery.go:307-312 | the listener is the value of the first label whose name starts with `listeners.kubedoop.dev/mnt`, and there is none exactly if no label does |
| `DiscoveryProperties.EntryText` | internal/controller/discovery.go:206-208 | an entry's name and value as text: the pod's address name, and the address's host, a colon and the port |
| `DiscoveryProperties.CacheIsTransparent` | internal/controller/discovery.go:187-240 | over an unchanging store the result, errors included, is that of looking every address up without a cache |
| `DiscoveryProperties.EachListenerFetchedOnce` | internal/controller/discovery.go:261-288 | for every history of the store each listener is requested at most once |
| `DiscoveryProperties.NoPartialBlock` | internal/controller/discovery.go:224-239 | a result is all web entries in order, alone or followed by all RPC entries in order |
| `DiscoveryProperties.BothPassesUseOneAddress` | internal/controller/discovery.go:251-289 | for every history and every pod whose own label stays, whatever happens to the listeners and to the other pods, its web and RPC entries are the host of one remembered address, with that address's two ports |
| `DiscoveryProperties.AllPodsUseOneAddress` | internal/controller/discovery.go:214-240 | if all labels stay, every entry of the result comes from the one address of its pod's listener |
| `DiscoveryProperties.EntriesOfStore` | internal/controller/discovery.go:187-240 | over an unchanging store the entries of a pod are the host and ports of the first address of its listener |
| `DiscoverySite.EntryNameIsKey` | internal/controller/discovery.go:206-206 | discovery and the roles' documents name a pod's RPC and web address alike |
| `DiscoverySite.MakeHdfsSiteXmlData` | internal/controller/discovery.go:93-139 | it never panics, fails exactly with the web pass, and else returns the common properties, the ids of all counted pods, the addresses and the Kerberos properties, without a repeated name; every id in its list owns both addresses if and only if the RPC pass succeeded and there is a pod |
| `DiscoverySite.DiscoveryTexts` | internal/controller/discovery.go:106-117 | nameservice, proxy provider and NameNode list of the discovery document, name by name, and how many properties it has |
| `DiscoverySite.SecurityDiscoveryTexts` | internal/common/kerberos.go:66-81 | each of the three Kerberos settings has its value exactly with Kerberos and is absent otherwise |
| `DiscoverySite.DiscoveryClosedIff` | internal/controller/discovery.go:163-240 | for every history of the store, every id in the document's `dfs.ha.namenodes` owns a web and an RPC address in it if and only if the RPC pass succeeded and there is a pod |
| `DiscoverySite.StoreClosedIff` | internal/controller/discovery.go:214-250 | over an unchanging store that is so if and only if there is a pod and every pod's listener offers a port named `rpc` |
| `RoleConfig.RoleNodeConfig.MergeDefaultConfig` | internal/common/role_config.go:77-123 | in place, and whatever the pointers alias, the result follows the absent/zero/default rules; the role's object changes only if the configuration pointed to it |
| `RoleConfig.DataVolumeSize` | internal/controller/data/statefulset_builder.go:178-180 | for every role, merging the defaults and then building the claim panics if and only if the role is the DataNode and the user gave storage alone; the other two builders (`internal/controller/name/statefulset_builder.go:203-207`, `internal/controller/journal/statefulset_builder.go:142-150`) then ask for 10Gi; otherwise the size is the user's or the role's, in bytes; so the wanted size is asked for if and only if storage is not given alone, or is 10Gi and the role no DataNode |

## Left out

- XML text: encoding and decoding belong to Go's library; documents are property lists.
- The operator library, the controller runtime and object matching: reconcilers, builders and patches are not part of this model.
- Containers, volumes, ports, probes, services, log4j text, the OIDC proxy and vector: constant assembly.
- core-site.xml, ssl-client.xml and ssl-server.xml: fixed lists with single-branch facts.
- `OverrideEnvVars`: the same loop as `OverrideProperties`, and nothing calls it.
- `OverrideConfigurations`: dispatches to the override functions above; nothing calls it.
- `StringWithProperties`, `MakeConfigFileContent`, `CreateNetworksByReplicates`: easy variants of modelled functions.
- Hadoop, ZooKeeper and Kubernetes internals beyond the hypotheses above, among them a crash in the middle of `-format`.
- Liveness: that a restarted init container eventually succeeds is not stated.
- Text.Sprintf: verbs other than `%s`, `%d` and `%%` and unused arguments leave a short marker instead of Go's error text.
- PropertiesFile.Scan: characters stand for bytes, also in the scanner's limit on a line.
- ClusterComponents.GetReplicas: 32-bit wrap-around of the sum is not modelled; with one matching group nothing is added twice.
