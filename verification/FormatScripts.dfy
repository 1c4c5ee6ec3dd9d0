/** The two init-container scripts of a NameNode pod, run by one pod on its own: what
    format-namenodes does to the pod's volume and to the shared journal, and what
    format-zookeeper does to the znode. */
module FormatScripts {
  import opened Text
  import opened PodNames

  const ACTIVE := "active"

  /** The pod's data volume; `version` is the namespace in `current/VERSION`, if that file exists. */
  class Volume {
    var version: Option<nat>
    constructor () ensures version == None { version := None; }
  }

  /** The shared edits journal. */
  class Journal {
    var namespaceId: Option<nat>
    constructor () ensures namespaceId == None { namespaceId := None; }
  }

  class ZooKeeper {
    var znode: bool
    constructor () ensures !znode { znode := false; }
  }

  // ----- The commands the scripts call, as the environment behaves -----

  /** `hdfs namenode -format -noninteractive`: fails without effect if the journal holds data, or for
      a reason of its own. */
  method HdfsFormat(volume: Volume, journal: Journal, newId: nat, failure: bool) returns (ok: bool)
    modifies volume, journal
    ensures ok <==> old(journal.namespaceId).None? && !failure
    ensures ok ==> volume.version == Some(newId) && journal.namespaceId == Some(newId)
    ensures !ok ==> volume.version == old(volume.version) && journal.namespaceId == old(journal.namespaceId)
  {
    ok := journal.namespaceId.None? && !failure;
    if ok {
      volume.version := Some(newId);
      journal.namespaceId := Some(newId);
    }
  }

  /** `hdfs namenode -bootstrapStandby -nonInteractive`: copies the namespace of a running peer, if there is one. */
  method HdfsBootstrapStandby(volume: Volume, peer: Option<nat>) returns (ok: bool)
    modifies volume
    ensures ok <==> peer.Some?
    ensures volume.version == if ok then peer else old(volume.version)
  {
    ok := peer.Some?;
    if ok {
      volume.version := peer;
    }
  }

  /** `hdfs zkfc -formatZK -nonInteractive`: `failure` is the exit code when ZooKeeper cannot be used. */
  method HdfsFormatZk(zooKeeper: ZooKeeper, failure: Option<int>) returns (exitCode: int)
    modifies zooKeeper
    ensures failure.Some? ==> exitCode == failure.value && zooKeeper.znode == old(zooKeeper.znode)
    ensures failure.None? ==> zooKeeper.znode && exitCode == if old(zooKeeper.znode) then 2 else 0
  {
    if failure.Some? {
      return failure.value;
    }
    exitCode := if zooKeeper.znode then 2 else 0;
    zooKeeper.znode := true;
  }

  // ----- format-namenodes -----

  /** The first id whose sampled service state is `active`. */
  function FirstActive(ids: seq<string>, samples: seq<string>): (active: Option<string>)
    requires |samples| == |ids|
    ensures active.None? <==> ACTIVE !in samples
    ensures active.Some? ==> exists i :: 0 <= i < |ids| && active.value == ids[i] && samples[i] == ACTIVE && ACTIVE !in samples[..i]
  {
    if ids == [] then None
    else if samples[0] == ACTIVE then Some(ids[0])
    else
      var active := FirstActive(ids[1..], samples[1..]);
      assert samples == [samples[0]] + samples[1..];
      assert active.Some? ==>
          forall i | 0 <= i < |ids| - 1 && ACTIVE !in samples[1..][..i] :: ACTIVE !in samples[..i + 1] by {
        assert forall i | 0 <= i < |ids| - 1 :: samples[..i + 1] == [samples[0]] + samples[1..][..i];
      }
      assert active.Some? ==> forall i | 0 <= i < |ids| - 1 :: ids[1..][i] == ids[i + 1] && samples[1..][i] == samples[i + 1];
      active
  }

  lemma {:induction false} FirstActiveSkips(ids: seq<string>, samples: seq<string>, k: nat)
    requires |samples| == |ids| && k <= |ids|
    requires ACTIVE !in samples[..k]
    ensures FirstActive(ids, samples) == FirstActive(ids[k..], samples[k..])
  {
    if k == 0 {
      assert ids[0..] == ids && samples[0..] == samples;
    } else {
      assert samples[..k][0] == samples[0];
      assert samples[1..][..k - 1] == samples[..k][1..];
      FirstActiveSkips(ids[1..], samples[1..], k - 1);
      assert ids[1..][k - 1..] == ids[k..] && samples[1..][k - 1..] == samples[k..];
    }
  }

  /** The probe loop. `samples` are the service states the probes print, one for each id. */
  method CheckForActive(ids: seq<string>, samples: seq<string>) returns (activeNameNode: Option<string>)
    requires |samples| == |ids|
    ensures activeNameNode == FirstActive(ids, samples)
    ensures activeNameNode.None? <==> "active" !in samples
    ensures activeNameNode.Some? ==>
              exists i :: 0 <= i < |ids| && activeNameNode.value == ids[i] && samples[i] == "active" && "active" !in samples[..i]
  {
    activeNameNode := None;
    var i := 0;
    while i < |ids|
      invariant 0 <= i <= |ids|
      invariant activeNameNode.None? && ACTIVE !in samples[..i]
    {
      var serviceState := samples[i];
      if serviceState == ACTIVE {
        FirstActiveSkips(ids, samples, i);
        activeNameNode := Some(ids[i]);
        return;
      }
      assert samples[..i + 1] == samples[..i] + [samples[i]];
      i := i + 1;
    }
    FirstActiveSkips(ids, samples, i);
  }

  datatype Branch = SkipFormat | FormatActive | BootstrapStandby

  /** The script's decision, from the VERSION file and ACTIVE_NAMENODE. */
  function Decide(formatted: bool, active: Option<string>): (branch: Branch)
  {
    if formatted then SkipFormat else if active.None? then FormatActive else BootstrapStandby
  }

  /** The whole script. The shell runs with -e, so a failing command ends it. In every branch
      success leaves a formatted volume, and a formatted volume is never rewritten. */
  method FormatNameNode(ids: seq<string>, samples: seq<string>, volume: Volume, journal: Journal,
                        freshNamespace: nat, failure: bool, peer: Option<nat>) returns (ok: bool)
    requires |samples| == |ids|
    modifies volume, journal
    ensures ok ==> volume.version.Some?
    ensures !ok ==> volume.version.None? && journal.namespaceId == old(journal.namespaceId)
    ensures old(volume.version).Some? ==>
              ok && volume.version == old(volume.version) && journal.namespaceId == old(journal.namespaceId)
    ensures old(volume.version).None? && "active" !in samples ==>
              && (ok <==> old(journal.namespaceId).None? && !failure)
              && (ok ==> volume.version == journal.namespaceId == Some(freshNamespace))
    ensures old(volume.version).None? && "active" in samples ==>
              volume.version == peer && journal.namespaceId == old(journal.namespaceId)
  {
    var active := CheckForActive(ids, samples);
    match Decide(volume.version.Some?, active)
    case SkipFormat => ok := true;
    case FormatActive => ok := HdfsFormat(volume, journal, freshNamespace, failure);
    case BootstrapStandby => ok := HdfsBootstrapStandby(volume, peer);
  }

  // ----- format-zookeeper -----

  /** The script of pod `ordinal` of a StatefulSet. Only ordinal 0 touches ZooKeeper; for it, exit
      code 0 means that the znode exists afterwards, whether it was there before or not. */
  method FormatZookeeper(statefulSet: string, ordinal: nat, zooKeeper: ZooKeeper, failure: Option<int>) returns (exitCode: int)
    requires failure.Some? ==> failure.value !in {0, 2}
    modifies zooKeeper
    ensures ordinal == 0 && exitCode == 0 ==> zooKeeper.znode
    ensures ordinal == 0 ==> exitCode == if failure.Some? then failure.value else 0
    ensures ordinal > 0 ==> exitCode == 0
    ensures ordinal > 0 || exitCode != 0 ==> zooKeeper.znode == old(zooKeeper.znode)
  {
    OrdinalRecovered(statefulSet, ordinal);
    if IsFirstOrdinal(PodName(statefulSet, ordinal)) {
      exitCode := HdfsFormatZk(zooKeeper, failure);
      if exitCode == 2 {
        exitCode := 0;
      }
    } else {
      exitCode := 0;
    }
  }
}
