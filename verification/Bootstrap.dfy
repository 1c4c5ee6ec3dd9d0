/** The NameNode bootstrap protocol: the init containers and main containers of all NameNode
    pods of a cluster as one step machine. Every probe is a step of its own, so its answer can
    be stale when it is used; pods fail over, restart and disappear between any two steps.

    What the environment is taken to do is written in `Enabled` and `Apply`: `-format` succeeds
    only on an empty journal; `-bootstrapStandby` copies from a serving pod of the same group; a
    probe prints `active` only for a pod that is active at that moment; a NameNode serves only on
    a volume whose namespace is the journal's; a StatefulSet creates a pod only while all lower
    ordinals serve; the init containers run one after the other. */
module Bootstrap {
  import opened Text
  import opened PodNames
  import opened FormatScripts

  datatype Pod = Pod(group: string, ordinal: nat)

  /** NameNode groups with their replica counts. */
  datatype Cluster = Cluster(name: string, replicas: map<string, nat>) {
    predicate Has(p: Pod) {
      p.group in replicas && p.ordinal < replicas[p.group]
    }

    /** The ids the pod's script probes: those of its own group. */
    function ProbedIds(p: Pod): (ids: seq<string>)
      requires Has(p)
      ensures |ids| == replicas[p.group] && forall i | 0 <= i < |ids| :: ids[i] == PodNameOf(Pod(p.group, i))
    {
      PodNameList(FullName(name, NAME_NODE, p.group), replicas[p.group])
    }

    function PodNameOf(p: Pod): string {
      PodName(FullName(name, NAME_NODE, p.group), p.ordinal)
    }
  }

  datatype Phase =
    | Absent
    | Checking(next: nat)                // format-namenodes, about to probe id `next`
    | Chosen(activeNameNode: Option<string>)  // format-namenodes, after the probe loop
    | FormattingZk                       // format-zookeeper
    | Starting                           // main container not serving
    | Serving(active: bool)

  /** `volume` holds the pods with a formatted volume and the namespace on it. */
  datatype State = State(volume: map<Pod, nat>, journal: Option<nat>, znode: bool, phases: map<Pod, Phase>) {
    function Of(p: Pod): Phase {
      if p in phases then phases[p] else Absent
    }

    function At(p: Pod, phase: Phase): State {
      this.(phases := phases[p := phase])
    }
  }

  datatype Event =
    | Create(p: Pod)
    | Probe(p: Pod, sample: string)
    | EndOfProbes(p: Pod)
    | Skip(p: Pod)
    | Format(p: Pod, namespaceId: nat)
    | FormatFails(p: Pod)
    | Bootstrap(p: Pod, peer: Pod)
    | BootstrapFails(p: Pod)
    | FormatZk(p: Pod, exitCode: int)
    | SkipZk(p: Pod)
    | Start(p: Pod)
    | ChangeRole(p: Pod, active: bool)
    | Stop(p: Pod)
    | Restart(p: Pod)
    | Delete(p: Pod)

  const INITIAL := State(map[], None, false, map[])

  /** Where the probe loop goes after one sample. */
  function AfterProbe(ids: seq<string>, i: nat, sample: string): Phase
    requires i < |ids|
  {
    if sample == ACTIVE then Chosen(Some(ids[i])) else Checking(i + 1)
  }

  predicate Enabled(c: Cluster, s: State, e: Event)
  {
    && c.Has(e.p)
    && var phase := s.Of(e.p);
       match e
       case Create(p) => phase.Absent? && forall k | 0 <= k < p.ordinal :: s.Of(Pod(p.group, k)).Serving?
       case Probe(p, sample) =>
         && phase.Checking? && phase.next < |c.ProbedIds(p)|
         && (sample == ACTIVE ==> s.Of(Pod(p.group, phase.next)) == Serving(true))
       case EndOfProbes(p) => phase.Checking? && phase.next == |c.ProbedIds(p)|
       case Skip(p) => phase.Chosen? && Decide(p in s.volume, phase.activeNameNode).SkipFormat?
       case Format(p, _) => phase.Chosen? && Decide(p in s.volume, phase.activeNameNode).FormatActive? && s.journal.None?
       case FormatFails(p) => phase.Chosen? && Decide(p in s.volume, phase.activeNameNode).FormatActive?
       case Bootstrap(p, peer) =>
         && phase.Chosen? && Decide(p in s.volume, phase.activeNameNode).BootstrapStandby?
         && peer.group == p.group && peer in s.volume && s.Of(peer).Serving?
       case BootstrapFails(p) => phase.Chosen? && Decide(p in s.volume, phase.activeNameNode).BootstrapStandby?
       case FormatZk(p, exitCode) =>
         && phase.FormattingZk? && IsFirstOrdinal(c.PodNameOf(p))
         && (exitCode == 0 ==> !s.znode) && (exitCode == 2 ==> s.znode)
       case SkipZk(p) => phase.FormattingZk? && !IsFirstOrdinal(c.PodNameOf(p))
       case Start(p) => phase.Starting? && p in s.volume && s.journal == Some(s.volume[p])
       case ChangeRole(p, _) => phase.Serving?
       case Stop(p) => phase.Serving?
       case Restart(p) => !phase.Absent?
       case Delete(p) => !phase.Absent?
  }

  function Apply(c: Cluster, s: State, e: Event): State
    requires Enabled(c, s, e)
  {
    match e
    case Create(p) => s.At(p, Checking(0))
    case Probe(p, sample) => s.At(p, AfterProbe(c.ProbedIds(p), s.Of(p).next, sample))
    case EndOfProbes(p) => s.At(p, Chosen(None))
    case Skip(p) => s.At(p, FormattingZk)
    case Format(p, id) => s.(volume := s.volume[p := id], journal := Some(id)).At(p, FormattingZk)
    case FormatFails(p) => s.At(p, Checking(0))
    case Bootstrap(p, peer) => s.(volume := s.volume[p := s.volume[peer]]).At(p, FormattingZk)
    case BootstrapFails(p) => s.At(p, Checking(0))
    case FormatZk(p, exitCode) =>
      if exitCode == 0 then s.(znode := true).At(p, Starting)
      else if exitCode == 2 then s.At(p, Starting)
      else s
    case SkipZk(p) => s.At(p, Starting)
    case Start(p) => s.At(p, Serving(false))
    case ChangeRole(p, active) => s.At(p, Serving(active))
    case Stop(p) => s.At(p, Starting)
    case Restart(p) => s.At(p, Checking(0))
    case Delete(p) => s.At(p, Absent)
  }

  /** A run: the states before, between and after a sequence of events. */
  ghost predicate IsRun(c: Cluster, states: seq<State>, events: seq<Event>)
  {
    && |states| == |events| + 1
    && forall k | 0 <= k < |events| :: Enabled(c, states[k], events[k]) && states[k + 1] == Apply(c, states[k], events[k])
  }

  // ----- The script's loop is the machine's loop -----

  /** What the probes of `p` printed, in order. */
  function Samples(events: seq<Event>, p: Pod): (samples: seq<string>)
  {
    if events == [] then [] else
      var samples, e := Samples(events[..|events| - 1], p), events[|events| - 1];
      if e.Probe? && e.p == p then samples + [e.sample] else samples
  }

  /** The phase of a probe loop after `n` of the given answers. */
  predicate InLoop(ids: seq<string>, answers: seq<string>, n: nat, phase: Phase)
    requires |answers| == |ids|
  {
    || (n <= |ids| && phase == Checking(n) && ACTIVE !in answers[..n])
    || phase == Chosen(FirstActive(ids, answers))
  }

  lemma NextAnswer(ids: seq<string>, answers: seq<string>, n: nat)
    requires |answers| == |ids| && n < |ids| && ACTIVE !in answers[..n]
    ensures answers[n] == ACTIVE ==> FirstActive(ids, answers) == Some(ids[n])
    ensures answers[n] != ACTIVE ==> ACTIVE !in answers[..n + 1]
  {
    FirstActiveSkips(ids, answers, n);
    assert answers[..n + 1] == answers[..n] + [answers[n]];
    assert ids[n..][0] == ids[n] && answers[n..][0] == answers[n];
  }

  lemma NoAnswer(ids: seq<string>, answers: seq<string>)
    requires |answers| == |ids| && ACTIVE !in answers[..|ids|]
    ensures FirstActive(ids, answers) == None
  {
    assert answers[..|ids|] == answers;
  }

  lemma StepInLoop(c: Cluster, s: State, e: Event, p: Pod, answers: seq<string>, n: nat)
    requires Enabled(c, s, e) && c.Has(p) && |answers| == |c.ProbedIds(p)|
    requires e.p == p ==> e.EndOfProbes? || (e.Probe? && n < |answers| && e.sample == answers[n])
    requires InLoop(c.ProbedIds(p), answers, n, s.Of(p))
    ensures InLoop(c.ProbedIds(p), answers, if e.Probe? && e.p == p then n + 1 else n, Apply(c, s, e).Of(p))
  {
    if e.p == p && e.Probe? {
      NextAnswer(c.ProbedIds(p), answers, n);
    } else if e.p == p {
      NoAnswer(c.ProbedIds(p), answers);
    }
  }

  /** A pod's probe loop, however the steps of other pods fall between its own, chooses what the
      script's loop chooses from the same answers. */
  lemma {:induction false} ProbesChooseFirstActive(c: Cluster, states: seq<State>, events: seq<Event>, p: Pod, answers: seq<string>)
    requires IsRun(c, states, events) && c.Has(p) && states[0].Of(p) == Checking(0)
    requires forall k | 0 <= k < |events| && events[k].p == p :: events[k].Probe? || events[k].EndOfProbes?
    requires |answers| == |c.ProbedIds(p)| && Samples(events, p) <= answers
    ensures InLoop(c.ProbedIds(p), answers, |Samples(events, p)|, states[|events|].Of(p))
    decreases |events|
  {
    if events != [] {
      var k := |events| - 1;
      ProbesChooseFirstActive(c, states[..k + 1], events[..k], p, answers);
      StepInLoop(c, states[k], events[k], p, answers, |Samples(events[..k], p)|);
    }
  }

  // ----- What every step keeps -----

  /** Volumes carry the journal's namespace, and no group is formatted but through its first pod. */
  ghost predicate VolumeInv(c: Cluster, s: State)
  {
    && (forall p | p in s.volume :: c.Has(p) && Pod(p.group, 0) in s.volume)
    && (forall p | p in s.volume :: s.journal == Some(s.volume[p]))
    && (s.journal.Some? ==> s.volume != map[])
  }

  /** What has been written before a pod gets to a phase. */
  ghost predicate PhaseInv(s: State)
  {
    && (forall p :: s.Of(p).FormattingZk? || s.Of(p).Starting? || s.Of(p).Serving? ==> p in s.volume)
    && (forall p :: s.Of(p).Starting? || s.Of(p).Serving? ==> s.znode)
    && (forall p :: !s.Of(p).Absent? && p.ordinal > 0 ==> s.znode && Pod(p.group, 0) in s.volume)
  }

  ghost predicate Inv(c: Cluster, s: State)
  {
    VolumeInv(c, s) && PhaseInv(s)
  }

  ghost predicate Reachable(c: Cluster, s: State)
  {
    exists states, events :: IsRun(c, states, events) && states[0] == INITIAL && states[|events|] == s
  }

  lemma StepKeepsVolumes(c: Cluster, s: State, e: Event)
    requires Inv(c, s) && Enabled(c, s, e)
    ensures VolumeInv(c, Apply(c, s, e))
  {
    if e.Format? || e.Bootstrap? {
      assert e.p in Apply(c, s, e).volume;
      assert e.p.ordinal == 0 ==> Pod(e.p.group, 0) == e.p;
    }
  }

  lemma StepKeepsPhases(c: Cluster, s: State, e: Event)
    requires PhaseInv(s) && Enabled(c, s, e)
    ensures PhaseInv(Apply(c, s, e))
  {
    OrdinalRecovered(FullName(c.name, NAME_NODE, e.p.group), e.p.ordinal);
    var s' := Apply(c, s, e);
    assert forall p | p != e.p :: s'.Of(p) == s.Of(p);
    if e.Create? && e.p.ordinal > 0 {
      assert s.Of(Pod(e.p.group, 0)).Serving?;
    }
  }

  lemma {:induction false} RunKeepsInv(c: Cluster, states: seq<State>, events: seq<Event>, k: nat)
    requires IsRun(c, states, events) && Inv(c, states[0]) && k < |states|
    ensures Inv(c, states[k])
  {
    if k > 0 {
      RunKeepsInv(c, states, events, k - 1);
      StepKeepsVolumes(c, states[k - 1], events[k - 1]);
      StepKeepsPhases(c, states[k - 1], events[k - 1]);
    }
  }

  // ----- Main results -----

  function CountFormats(events: seq<Event>): (n: nat)
  {
    if events == [] then 0
    else CountFormats(events[..|events| - 1]) + if events[|events| - 1].Format? then 1 else 0
  }

  /** A successful `-format` fills an empty journal; no other step touches it. */
  predicate FillsJournal(s: State, e: Event, s': State)
  {
    if e.Format? then s.journal.None? && s'.journal.Some? else s'.journal == s.journal
  }

  lemma FormatFillsJournal(c: Cluster, s: State, e: Event)
    requires Enabled(c, s, e)
    ensures FillsJournal(s, e, Apply(c, s, e))
  {
  }

  lemma {:induction false} FormatsCounted(states: seq<State>, events: seq<Event>)
    requires |states| == |events| + 1 && states[0].journal.None?
    requires forall k | 0 <= k < |events| :: FillsJournal(states[k], events[k], states[k + 1])
    ensures CountFormats(events) == if states[|events|].journal.None? then 0 else 1
    decreases |events|
  {
    if events != [] {
      var n := |events| - 1;
      FormatsCounted(states[..n + 1], events[..n]);
      assert FillsJournal(states[n], events[n], states[n + 1]);
    }
  }

  /** In every run of a fresh cluster at most one `-format` succeeds: none while the journal is
      empty, exactly one once it is not, and every formatted volume carries the journal's namespace. */
  lemma FormatsAtMostOnce(c: Cluster, states: seq<State>, events: seq<Event>)
    requires IsRun(c, states, events) && states[0] == INITIAL
    ensures CountFormats(events) == if states[|events|].journal.None? then 0 else 1
    ensures forall p | p in states[|events|].volume :: states[|events|].journal == Some(states[|events|].volume[p])
  {
    forall k | 0 <= k < |events| ensures FillsJournal(states[k], events[k], states[k + 1]) {
      FormatFillsJournal(c, states[k], events[k]);
    }
    FormatsCounted(states, events);
    RunKeepsInv(c, states, events, |events|);
  }

  /** `t` keeps everything that is written in `s`. */
  ghost predicate Keeps(s: State, t: State)
  {
    && (forall p | p in s.volume :: p in t.volume && t.volume[p] == s.volume[p])
    && (s.journal.Some? ==> t.journal == s.journal)
    && (s.znode ==> t.znode)
  }

  lemma StepKeeps(c: Cluster, s: State, e: Event)
    requires Enabled(c, s, e)
    ensures Keeps(s, Apply(c, s, e))
  {
  }

  lemma {:induction false} KeepsAlong(states: seq<State>, i: nat, j: nat)
    requires i <= j < |states| && forall k | 0 <= k < |states| - 1 :: Keeps(states[k], states[k + 1])
    ensures Keeps(states[i], states[j])
  {
    if i < j {
      KeepsAlong(states, i, j - 1);
      assert Keeps(states[j - 1], states[j - 1 + 1]);
    }
  }

  /** Volumes, the journal and the znode are write-once over every run. */
  lemma WriteOnce(c: Cluster, states: seq<State>, events: seq<Event>, i: nat, j: nat)
    requires IsRun(c, states, events) && i <= j < |states|
    ensures Keeps(states[i], states[j])
  {
    forall k | 0 <= k < |events| ensures Keeps(states[k], states[k + 1]) {
      StepKeeps(c, states[k], events[k]);
    }
    KeepsAlong(states, i, j);
  }

  /** No init container passes and no main container starts on an unformatted volume, and any two
      NameNodes that serve, at whatever times of the run, serve the same namespace. */
  lemma ServesFormattedVolume(c: Cluster, states: seq<State>, events: seq<Event>, i: nat, j: nat, p: Pod, q: Pod)
    requires IsRun(c, states, events) && states[0] == INITIAL && i <= j < |states|
    requires states[i].Of(p).FormattingZk? || states[i].Of(p).Starting? || states[i].Of(p).Serving?
    requires states[j].Of(q).FormattingZk? || states[j].Of(q).Starting? || states[j].Of(q).Serving?
    ensures p in states[i].volume && q in states[j].volume && states[i].volume[p] == states[j].volume[q]
  {
    RunKeepsInv(c, states, events, i);
    RunKeepsInv(c, states, events, j);
    WriteOnce(c, states, events, i, j);
  }

  /** Ordered start makes ordinal 0 of some group the only pod that ever formats. */
  lemma OnlyFirstOrdinalFormats(c: Cluster, states: seq<State>, events: seq<Event>, k: nat)
    requires IsRun(c, states, events) && states[0] == INITIAL && k < |events|
    requires events[k].Format? || events[k].FormatZk?
    ensures events[k].p.ordinal == 0
  {
    RunKeepsInv(c, states, events, k);
    assert Enabled(c, states[k], events[k]);
    OrdinalRecovered(FullName(c.name, NAME_NODE, events[k].p.group), events[k].p.ordinal);
  }

  /** Whenever format-zookeeper prints that ZooKeeper is already formatted, it is. */
  lemma AlreadyFormattedIsTrue(c: Cluster, states: seq<State>, events: seq<Event>, k: nat)
    requires IsRun(c, states, events) && states[0] == INITIAL && k < |events| && events[k].SkipZk?
    ensures states[k].znode && events[k].p.ordinal > 0
  {
    RunKeepsInv(c, states, events, k);
    assert Enabled(c, states[k], events[k]);
    OrdinalRecovered(FullName(c.name, NAME_NODE, events[k].p.group), events[k].p.ordinal);
  }

  /** The pod has not probed past `q` in vain. */
  predicate MayStillFind(phase: Phase, q: Pod)
  {
    && (phase.Checking? ==> phase.next <= q.ordinal)
    && (phase.Chosen? ==> phase.activeNameNode.Some?)
  }

  /** A probe prints `active` exactly if the probed pod is active at that step. */
  predicate Truthful(s: State, e: Event)
  {
    e.Probe? && s.Of(e.p).Checking? ==>
      (e.sample == ACTIVE <==> s.Of(Pod(e.p.group, s.Of(e.p).next)) == Serving(true))
  }

  lemma StepMayStillFind(c: Cluster, s: State, e: Event, p: Pod, q: Pod)
    requires Enabled(c, s, e) && c.Has(p) && c.Has(q) && p.group == q.group
    requires MayStillFind(s.Of(p), q) && s.Of(q) == Serving(true) && (e.p == p ==> Truthful(s, e))
    ensures MayStillFind(Apply(c, s, e).Of(p), q)
    ensures e.p == p ==> !e.Format? && !e.FormatFails?
  {
    assert Pod(p.group, q.ordinal) == q;
  }

  /** As long as one pod of the group stays active and `p`'s probes are answered, `p` never ends its
      probe loop empty-handed, however often it restarts meanwhile, and never tries to format. */
  lemma {:induction false} SteadyActiveIsFound(c: Cluster, states: seq<State>, events: seq<Event>, i: nat, j: nat, p: Pod, q: Pod)
    requires IsRun(c, states, events) && i <= j < |states|
    requires c.Has(p) && c.Has(q) && p.group == q.group
    requires MayStillFind(states[i].Of(p), q)
    requires forall k | i <= k < j :: states[k].Of(q) == Serving(true)
    requires forall k | i <= k < j && events[k].p == p :: Truthful(states[k], events[k])
    ensures MayStillFind(states[j].Of(p), q)
    ensures forall k | i <= k < j :: !(events[k].p == p && (events[k].Format? || events[k].FormatFails?))
  {
    if i < j {
      SteadyActiveIsFound(c, states, events, i, j - 1, p, q);
      StepMayStillFind(c, states[j - 1], events[j - 1], p, q);
    }
  }

  // ----- More than one NameNode group -----

  ghost predicate HasFormatted(s: State, group: string)
  {
    exists p :: p in s.volume && p.group == group
  }

  lemma StepInsideGroup(c: Cluster, s: State, e: Event, group: string)
    requires Inv(c, s) && Enabled(c, s, e) && s.journal.Some?
    ensures HasFormatted(Apply(c, s, e), group) <==> HasFormatted(s, group)
  {
    StepKeeps(c, s, e);
    var s' := Apply(c, s, e);
    if HasFormatted(s', group) {
      var p :| p in s'.volume && p.group == group;
      assert p in s.volume || (e.Bootstrap? && e.peer in s.volume && e.peer.group == group);
    }
    if HasFormatted(s, group) {
      var p :| p in s.volume && p.group == group;
      assert p in s'.volume;
    }
  }

  /** The scripts probe and bootstrap inside their own group only. So once the journal is
      formatted, a group gets a formatted volume in some later state if and only if it has one
      already: a second group is locked out for good. */
  lemma LockedOutForGood(c: Cluster, states: seq<State>, events: seq<Event>, i: nat, j: nat, group: string)
    requires IsRun(c, states, events) && Inv(c, states[0]) && i <= j < |states|
    requires states[i].journal.Some?
    ensures HasFormatted(states[j], group) <==> HasFormatted(states[i], group)
  {
    forall k | i <= k < j ensures HasFormatted(states[k + 1], group) <==> HasFormatted(states[k], group) {
      WriteOnce(c, states, events, i, k);
      RunKeepsInv(c, states, events, k);
      StepInsideGroup(c, states[k], events[k], group);
    }
    FormattedAlong(states, i, j, group);
  }

  lemma {:induction false} FormattedAlong(states: seq<State>, i: nat, j: nat, group: string)
    requires i <= j < |states|
    requires forall k | i <= k < j :: HasFormatted(states[k + 1], group) <==> HasFormatted(states[k], group)
    ensures HasFormatted(states[j], group) <==> HasFormatted(states[i], group)
  {
    if i < j {
      FormattedAlong(states, i, j - 1, group);
      assert HasFormatted(states[j - 1 + 1], group) <==> HasFormatted(states[j - 1], group);
    }
  }

  lemma Extend(c: Cluster, states: seq<State>, events: seq<Event>, e: Event) returns (states': seq<State>, events': seq<Event>)
    requires IsRun(c, states, events) && Enabled(c, states[|events|], e)
    ensures IsRun(c, states', events') && states'[0] == states[0]
    ensures states'[|events'|] == Apply(c, states[|events|], e)
  {
    states', events' := states + [Apply(c, states[|events|], e)], events + [e];
    forall k | 0 <= k < |events'| ensures Enabled(c, states'[k], events'[k]) && states'[k + 1] == Apply(c, states'[k], events'[k]) {
      if k < |events| {
        assert events'[k] == events[k] && states'[k] == states[k] && states'[k + 1] == states[k + 1];
      }
    }
  }

  /** A pod whose probes all go unanswered gets to the end of its list. */
  lemma {:induction false} ProbeInVain(c: Cluster, states: seq<State>, events: seq<Event>, p: Pod)
      returns (states': seq<State>, events': seq<Event>)
    requires IsRun(c, states, events) && c.Has(p)
    requires states[|events|].Of(p).Checking? && states[|events|].Of(p).next <= |c.ProbedIds(p)|
    ensures IsRun(c, states', events') && states'[0] == states[0]
    ensures states'[|events'|].journal == states[|events|].journal && states'[|events'|].volume == states[|events|].volume
    ensures states'[|events'|].Of(p) == Checking(|c.ProbedIds(p)|)
    decreases |c.ProbedIds(p)| - states[|events|].Of(p).next
  {
    if states[|events|].Of(p).next == |c.ProbedIds(p)| {
      return states, events;
    }
    states', events' := Extend(c, states, events, Probe(p, ""));
    states', events' := ProbeInVain(c, states', events', p);
  }

  /** A first pod can be created anew and find no active peer. */
  lemma FirstPodCanChoose(c: Cluster, s: State, p: Pod) returns (states: seq<State>, events: seq<Event>)
    requires c.Has(p) && p.ordinal == 0
    ensures IsRun(c, states, events) && states[0] == s
    ensures states[|events|].volume == s.volume && states[|events|].journal == s.journal
    ensures states[|events|].Of(p) == Chosen(None)
  {
    states, events := [s], [];
    if !s.Of(p).Absent? {
      states, events := Extend(c, states, events, Delete(p));
    }
    states, events := Extend(c, states, events, Create(p));
    states, events := ProbeInVain(c, states, events, p);
    states, events := Extend(c, states, events, EndOfProbes(p));
  }

  /** A pod that has passed format-namenodes can get to serve. */
  lemma FormattedPodCanFinish(c: Cluster, states: seq<State>, events: seq<Event>, p: Pod)
      returns (states': seq<State>, events': seq<Event>)
    requires IsRun(c, states, events) && c.Has(p) && Inv(c, states[|events|]) && states[|events|].Of(p).FormattingZk?
    ensures IsRun(c, states', events') && states'[0] == states[0] && states'[|events'|].volume == states[|events|].volume
    ensures states'[|events'|].journal == states[|events|].journal && states'[|events'|].Of(p) == Serving(false)
  {
    OrdinalRecovered(FullName(c.name, NAME_NODE, p.group), p.ordinal);
    var e := if p.ordinal == 0 then FormatZk(p, if states[|events|].znode then 2 else 0) else SkipZk(p);
    states', events' := Extend(c, states, events, e);
    states', events' := Extend(c, states', events', Start(p));
  }

  /** A first pod with a formatted volume, or on an empty journal, can get to serve. */
  lemma FirstPodCanServe(c: Cluster, s: State, p: Pod) returns (states: seq<State>, events: seq<Event>)
    requires Inv(c, s) && c.Has(p) && p.ordinal == 0 && (p in s.volume || s.journal.None?)
    ensures IsRun(c, states, events) && states[0] == s && states[|events|].volume.Keys == s.volume.Keys + {p}
    ensures states[|events|].journal.Some? && states[|events|].Of(p).Serving?
  {
    states, events := FirstPodCanChoose(c, s, p);
    states, events := Extend(c, states, events, if p in s.volume then Skip(p) else Format(p, 0));
    RunKeepsInv(c, states, events, |events|);
    states, events := FormattedPodCanFinish(c, states, events, p);
  }

  predicate HasPods(c: Cluster, group: string)
  {
    group in c.replicas && c.replicas[group] > 0
  }

  ghost predicate Serves(s: State, group: string)
  {
    exists p: Pod :: s.Of(p).Serving? && p.group == group
  }

  /** Some run from `s` ends with a pod of the group serving. */
  ghost predicate CanComeUp(c: Cluster, s: State, group: string)
  {
    exists states, events :: IsRun(c, states, events) && states[0] == s && Serves(states[|events|], group)
  }

  lemma ServingWasPossible(c: Cluster, states: seq<State>, events: seq<Event>, p: Pod)
    requires IsRun(c, states, events) && Inv(c, states[0]) && states[|events|].Of(p).Serving?
    ensures HasPods(c, p.group) && (states[0].journal.Some? ==> HasFormatted(states[0], p.group))
  {
    RunKeepsInv(c, states, events, |events|);
    assert p in states[|events|].volume;
    if states[0].journal.Some? {
      LockedOutForGood(c, states, events, 0, |events|, p.group);
    }
  }

  /** Exactly the groups with a formatted volume, or with a pod while the journal is still empty, can come up. */
  lemma CanComeUpIff(c: Cluster, s: State, group: string)
    requires Inv(c, s)
    ensures CanComeUp(c, s, group) <==> HasFormatted(s, group) || (s.journal.None? && HasPods(c, group))
  {
    if CanComeUp(c, s, group) {
      var states: seq<State>, events: seq<Event> :| IsRun(c, states, events) && states[0] == s && Serves(states[|events|], group);
      var p: Pod :| states[|events|].Of(p).Serving? && p.group == group;
      ServingWasPossible(c, states, events, p);
    }
    if HasFormatted(s, group) || (s.journal.None? && HasPods(c, group)) {
      var states, events := FirstPodCanServe(c, s, Pod(group, 0));
      assert Serves(states[|events|], group);
    }
  }

  /** In every cluster with two groups, one of them with a pod, there is a run that locks the other out. */
  lemma SecondGroupLockedOut(c: Cluster, g: string, h: string) returns (states: seq<State>, events: seq<Event>)
    requires HasPods(c, g) && g != h
    ensures IsRun(c, states, events) && states[0] == INITIAL
    ensures HasFormatted(states[|events|], g) && !CanComeUp(c, states[|events|], h)
  {
    states, events := FirstPodCanServe(c, INITIAL, Pod(g, 0));
    RunKeepsInv(c, states, events, |events|);
    assert Pod(g, 0) in states[|events|].volume;
    CanComeUpIff(c, states[|events|], h);
  }

  /** What a user can read off the specification: no group with pods is ever locked out, in any
      state of any run, if and only if at most one group has pods. */
  lemma NoGroupLockedOutIff(c: Cluster)
    ensures (forall s, group | Reachable(c, s) && HasPods(c, group) :: CanComeUp(c, s, group))
            <==> (forall g, h | HasPods(c, g) && HasPods(c, h) :: g == h)
  {
    if forall g, h | HasPods(c, g) && HasPods(c, h) :: g == h {
      forall s, group | Reachable(c, s) && HasPods(c, group) ensures CanComeUp(c, s, group) {
        OnlyGroupCanComeUp(c, s, group);
      }
    } else {
      var g, h :| HasPods(c, g) && HasPods(c, h) && g != h;
      var states, events := SecondGroupLockedOut(c, g, h);
      assert Reachable(c, states[|events|]);
    }
  }

  lemma OnlyGroupCanComeUp(c: Cluster, s: State, group: string)
    requires Reachable(c, s) && HasPods(c, group)
    requires forall g, h | HasPods(c, g) && HasPods(c, h) :: g == h
    ensures CanComeUp(c, s, group)
  {
    var states, events :| IsRun(c, states, events) && states[0] == INITIAL && states[|events|] == s;
    RunKeepsInv(c, states, events, |events|);
    if s.journal.Some? {
      var p :| p in s.volume;
      assert HasPods(c, p.group);
    }
    CanComeUpIff(c, s, group);
  }

  // ----- A whole group comes up -----

  /** The first `n` pods of the group serve, ordinal 0 as the active NameNode, the others on standby. */
  ghost predicate InOrder(s: State, group: string, n: nat)
  {
    forall k | 0 <= k < n :: s.Of(Pod(group, k)) == Serving(k == 0)
  }

  lemma StepKeepsOrder(c: Cluster, s: State, e: Event, group: string, n: nat)
    requires Enabled(c, s, e) && InOrder(s, group, n) && e.p.ordinal >= n
    ensures InOrder(Apply(c, s, e), group, n)
  {
    forall k | 0 <= k < n ensures Apply(c, s, e).Of(Pod(group, k)) == Serving(k == 0) {
      assert Pod(group, k) != e.p;
    }
  }

  /** One more step of a run whose first pods stay in order. */
  lemma ExtendInOrder(c: Cluster, states: seq<State>, events: seq<Event>, e: Event, group: string, n: nat)
      returns (states': seq<State>, events': seq<Event>)
    requires IsRun(c, states, events) && Inv(c, states[|events|]) && Enabled(c, states[|events|], e)
    requires InOrder(states[|events|], group, n) && e.p.ordinal >= n
    ensures IsRun(c, states', events') && states'[0] == states[0] && states'[|events'|] == Apply(c, states[|events|], e)
    ensures Inv(c, states'[|events'|]) && InOrder(states'[|events'|], group, n)
  {
    StepKeepsOrder(c, states[|events|], e, group, n);
    StepKeepsVolumes(c, states[|events|], e);
    StepKeepsPhases(c, states[|events|], e);
    states', events' := Extend(c, states, events, e);
  }

  /** The next pod is created and finds ordinal 0 active at its first probe. */
  lemma NextPodChooses(c: Cluster, states: seq<State>, events: seq<Event>, p: Pod)
      returns (states': seq<State>, events': seq<Event>)
    requires IsRun(c, states, events) && Inv(c, states[|events|]) && c.Has(p) && p.ordinal > 0
    requires InOrder(states[|events|], p.group, p.ordinal)
    ensures IsRun(c, states', events') && states'[0] == states[0]
    ensures Inv(c, states'[|events'|]) && InOrder(states'[|events'|], p.group, p.ordinal)
    ensures states'[|events'|].Of(p) == Chosen(Some(c.PodNameOf(Pod(p.group, 0))))
  {
    states', events' := states, events;
    if !states[|events|].Of(p).Absent? {
      states', events' := ExtendInOrder(c, states', events', Delete(p), p.group, p.ordinal);
    }
    states', events' := ExtendInOrder(c, states', events', Create(p), p.group, p.ordinal);
    assert states'[|events'|].Of(Pod(p.group, 0)) == Serving(true);
    states', events' := ExtendInOrder(c, states', events', Probe(p, ACTIVE), p.group, p.ordinal);
  }

  /** It copies the namespace, unless it has one. */
  lemma NextPodFormatted(c: Cluster, states: seq<State>, events: seq<Event>, p: Pod)
      returns (states': seq<State>, events': seq<Event>)
    requires IsRun(c, states, events) && Inv(c, states[|events|]) && c.Has(p) && p.ordinal > 0
    requires InOrder(states[|events|], p.group, p.ordinal)
    requires states[|events|].Of(p).Chosen? && states[|events|].Of(p).activeNameNode.Some?
    ensures IsRun(c, states', events') && states'[0] == states[0]
    ensures Inv(c, states'[|events'|]) && InOrder(states'[|events'|], p.group, p.ordinal)
    ensures states'[|events'|].Of(p).FormattingZk?
  {
    var first := Pod(p.group, 0);
    assert states[|events|].Of(first) == Serving(true);
    var e := if p in states[|events|].volume then Skip(p) else Bootstrap(p, first);
    states', events' := ExtendInOrder(c, states, events, e, p.group, p.ordinal);
  }

  /** It passes format-zookeeper and serves on standby. */
  lemma NextPodServes(c: Cluster, states: seq<State>, events: seq<Event>, p: Pod)
      returns (states': seq<State>, events': seq<Event>)
    requires IsRun(c, states, events) && Inv(c, states[|events|]) && c.Has(p) && p.ordinal > 0
    requires InOrder(states[|events|], p.group, p.ordinal) && states[|events|].Of(p).FormattingZk?
    ensures IsRun(c, states', events') && states'[0] == states[0]
    ensures Inv(c, states'[|events'|]) && InOrder(states'[|events'|], p.group, p.ordinal + 1)
  {
    OrdinalRecovered(FullName(c.name, NAME_NODE, p.group), p.ordinal);
    states', events' := ExtendInOrder(c, states, events, SkipZk(p), p.group, p.ordinal);
    states', events' := ExtendInOrder(c, states', events', Start(p), p.group, p.ordinal);
    assert states'[|events'|].Of(p) == Serving(false);
  }

  lemma {:induction false} PodsServeInOrder(c: Cluster, states: seq<State>, events: seq<Event>, group: string, n: nat)
      returns (states': seq<State>, events': seq<Event>)
    requires IsRun(c, states, events) && Inv(c, states[|events|])
    requires group in c.replicas && 0 < n <= c.replicas[group] && InOrder(states[|events|], group, n)
    ensures IsRun(c, states', events') && states'[0] == states[0] && InOrder(states'[|events'|], group, c.replicas[group])
    decreases c.replicas[group] - n
  {
    if n == c.replicas[group] {
      return states, events;
    }
    states', events' := NextPodChooses(c, states, events, Pod(group, n));
    states', events' := NextPodFormatted(c, states', events', Pod(group, n));
    states', events' := NextPodServes(c, states', events', Pod(group, n));
    states', events' := PodsServeInOrder(c, states', events', group, n + 1);
  }

  /** Some run from `s` ends with all pods of the group serving, ordinal 0 active and the others on standby. */
  ghost predicate CanComeUpWhole(c: Cluster, s: State, group: string)
    requires group in c.replicas
  {
    exists states, events :: IsRun(c, states, events) && states[0] == s && InOrder(states[|events|], group, c.replicas[group])
  }

  /** A group that can come up at all can come up whole: under exactly the same condition as for one
      pod, a run makes every pod of the group serve. */
  lemma WholeGroupCanComeUpIff(c: Cluster, s: State, group: string)
    requires Inv(c, s) && HasPods(c, group)
    ensures CanComeUpWhole(c, s, group) <==> HasFormatted(s, group) || s.journal.None?
  {
    if CanComeUpWhole(c, s, group) {
      var states: seq<State>, events: seq<Event> :|
        IsRun(c, states, events) && states[0] == s && InOrder(states[|events|], group, c.replicas[group]);
      assert states[|events|].Of(Pod(group, 0)).Serving?;
      ServingWasPossible(c, states, events, Pod(group, 0));
    }
    if HasFormatted(s, group) || s.journal.None? {
      var first := Pod(group, 0);
      var states, events := FirstPodCanServe(c, s, first);
      RunKeepsInv(c, states, events, |events|);
      states, events := ExtendInOrder(c, states, events, ChangeRole(first, true), group, 0);
      states, events := PodsServeInOrder(c, states, events, group, 1);
    }
  }

  // ----- What a pod decides on -----

  /** Where a pod's script starts from the top. */
  predicate Starts(e: Event)
  {
    e.Create? || e.Restart? || e.FormatFails? || e.BootstrapFails?
  }

  predicate InScript(phase: Phase)
  {
    phase.Checking? || phase.Chosen?
  }

  lemma StepIntoLoop(c: Cluster, s: State, e: Event, p: Pod)
    requires Enabled(c, s, e)
    ensures LoopStep(s, e, Apply(c, s, e), p)
  {
  }

  /** What one step means for a pod that is inside its script afterwards. */
  predicate LoopStep(s: State, e: Event, s': State, p: Pod)
  {
    InScript(s'.Of(p)) ==>
      if e.p == p && Starts(e) then s'.Of(p) == Checking(0)
      else InScript(s.Of(p)) && (e.p == p ==> e.Probe? || e.EndOfProbes?)
  }

  lemma {:induction false} LoopAlong(states: seq<State>, events: seq<Event>, p: Pod, k: nat) returns (i: nat)
    requires |states| == |events| + 1 && states[0] == INITIAL && k < |states| && InScript(states[k].Of(p))
    requires forall j | 0 <= j < |events| :: LoopStep(states[j], events[j], states[j + 1], p)
    ensures i < k && events[i].p == p && Starts(events[i]) && states[i + 1].Of(p) == Checking(0)
    ensures forall j | i < j < k && events[j].p == p :: events[j].Probe? || events[j].EndOfProbes?
  {
    assert LoopStep(states[k - 1], events[k - 1], states[k - 1 + 1], p);
    if events[k - 1].p == p && Starts(events[k - 1]) {
      i := k - 1;
    } else {
      i := LoopAlong(states, events, p, k - 1);
    }
  }

  /** A pod inside its probe loop, or at the end of it, entered the loop at its last creation, restart
      or failed command, with the first id, and has only probed since. */
  lemma LoopEntered(c: Cluster, states: seq<State>, events: seq<Event>, p: Pod, k: nat) returns (i: nat)
    requires IsRun(c, states, events) && states[0] == INITIAL && k < |states| && InScript(states[k].Of(p))
    ensures i < k && events[i].p == p && Starts(events[i]) && states[i + 1].Of(p) == Checking(0)
    ensures forall j | i < j < k && events[j].p == p :: events[j].Probe? || events[j].EndOfProbes?
  {
    forall j | 0 <= j < |events| ensures LoopStep(states[j], events[j], states[j + 1], p) {
      StepIntoLoop(c, states[j], events[j], p);
    }
    i := LoopAlong(states, events, p, k);
  }

  /** `id` names a pod of `p`'s own group that is active in one of the states from `i` to `j`. */
  ghost predicate WasActive(c: Cluster, states: seq<State>, p: Pod, id: string, i: nat, j: nat)
    requires i <= j < |states|
  {
    exists q, t :: c.Has(q) && q.group == p.group && id == c.PodNameOf(q) && i <= t <= j && states[t].Of(q) == Serving(true)
  }

  lemma WasActiveSince(c: Cluster, states: seq<State>, p: Pod, id: string, i: nat, j: nat, k: nat)
    requires i <= j <= k < |states| && WasActive(c, states, p, id, i, j)
    ensures WasActive(c, states, p, id, i, k)
  {
  }

  /** A pod chooses an id only at the moment its pod is active. */
  lemma StepChooses(c: Cluster, s: State, e: Event, p: Pod) returns (q: Pod)
    requires Enabled(c, s, e) && (e.p == p ==> e.Probe? || e.EndOfProbes?)
    requires Apply(c, s, e).Of(p).Chosen? && Apply(c, s, e).Of(p).activeNameNode.Some?
    ensures Apply(c, s, e).Of(p) == s.Of(p)
            || (c.Has(q) && q.group == p.group && s.Of(q) == Serving(true)
                && Apply(c, s, e).Of(p).activeNameNode.value == c.PodNameOf(q))
  {
    q := p;
    if e.p == p && e.Probe? {
      q := Pod(p.group, s.Of(p).next);
      assert c.ProbedIds(p)[s.Of(p).next] == c.PodNameOf(q);
    }
  }

  lemma {:induction false} ChosenSince(c: Cluster, states: seq<State>, events: seq<Event>, p: Pod, i: nat, k: nat)
    requires IsRun(c, states, events) && i <= k < |states| && states[i].Of(p) == Checking(0)
    requires forall j | i <= j < k && events[j].p == p :: events[j].Probe? || events[j].EndOfProbes?
    requires states[k].Of(p).Chosen? && states[k].Of(p).activeNameNode.Some?
    ensures WasActive(c, states, p, states[k].Of(p).activeNameNode.value, i, k)
  {
    var q := StepChooses(c, states[k - 1], events[k - 1], p);
    if states[k].Of(p) == states[k - 1].Of(p) {
      ChosenSince(c, states, events, p, i, k - 1);
      WasActiveSince(c, states, p, states[k].Of(p).activeNameNode.value, i, k - 1, k);
    } else {
      assert states[k - 1].Of(q) == Serving(true);
    }
  }

  /** Whatever ACTIVE_NAMENODE a pod has chosen in a run, it names a pod of its own group that has been
      active since the script last started: no answer from before a restart is ever used. */
  lemma ChosenWasActive(c: Cluster, states: seq<State>, events: seq<Event>, p: Pod, k: nat) returns (i: nat)
    requires IsRun(c, states, events) && states[0] == INITIAL && k < |states|
    requires states[k].Of(p).Chosen? && states[k].Of(p).activeNameNode.Some?
    ensures i < k && events[i].p == p && Starts(events[i])
    ensures WasActive(c, states, p, states[k].Of(p).activeNameNode.value, i + 1, k)
  {
    i := LoopEntered(c, states, events, p, k);
    ChosenSince(c, states, events, p, i + 1, k);
  }

  /** The names the machine's pods go by. */
  lemma PodNameOfText(c: Cluster, p: Pod)
    ensures c.PodNameOf(p) == c.name + "-" + "namenode" + "-" + p.group + "-" + Itoa(p.ordinal)
  {
    PodNameText(FullName(c.name, NAME_NODE, p.group), p.ordinal);
  }

  // ----- Failing commands and dying NameNodes -----

  /** The command a pod has decided on can always fail, without a trace, and then the pod can end up
      without an active peer once more: nothing bounds the number of attempts. */
  lemma FailureStartsOver(c: Cluster, s: State, p: Pod) returns (states: seq<State>, events: seq<Event>)
    requires c.Has(p) && p !in s.volume && s.Of(p).Chosen?
    ensures var e := if s.Of(p).activeNameNode.None? then FormatFails(p) else BootstrapFails(p);
            Enabled(c, s, e) && IsRun(c, states, events) && states[0] == Apply(c, s, e)
    ensures states[|events|].Of(p) == Chosen(None)
    ensures states[|events|].volume == s.volume && states[|events|].journal == s.journal
  {
    var e := if s.Of(p).activeNameNode.None? then FormatFails(p) else BootstrapFails(p);
    var noEvents: seq<Event> := [];
    states, events := ProbeInVain(c, [Apply(c, s, e)], noEvents, p);
    states, events := Extend(c, states, events, EndOfProbes(p));
  }

  /** format-zookeeper can fail any number of times too, and is repeated alone. */
  lemma FormatZkRepeats(c: Cluster, s: State, p: Pod, exitCode: int)
    requires c.Has(p) && p.ordinal == 0 && s.Of(p).FormattingZk? && exitCode != 0 && exitCode != 2
    ensures Enabled(c, s, FormatZk(p, exitCode)) && Apply(c, s, FormatZk(p, exitCode)) == s
  {
    OrdinalRecovered(FullName(c.name, NAME_NODE, p.group), p.ordinal);
  }

  /** A NameNode process that dies can serve again, on standby, with nothing else changed. */
  lemma StoppedPodServesAgain(c: Cluster, s: State, p: Pod) returns (states: seq<State>, events: seq<Event>)
    requires Inv(c, s) && c.Has(p) && s.Of(p).Serving?
    ensures IsRun(c, states, events) && states[0] == s && states[|events|] == s.At(p, Serving(false))
    ensures exists k | 0 <= k < |events| :: events[k] == Stop(p)
  {
    var s1 := Apply(c, s, Stop(p));
    var s2 := Apply(c, s1, Start(p));
    states, events := [s, s1, s2], [Stop(p), Start(p)];
    assert events[0] == Stop(p);
    assert s2.phases == s.At(p, Serving(false)).phases;
  }

  /** A container that is killed runs the script again from the top, keeps its volume and can serve again. */
  lemma RestartedPodServesAgain(c: Cluster, s: State, p: Pod) returns (states: seq<State>, events: seq<Event>)
    requires Inv(c, s) && c.Has(p) && p in s.volume && !s.Of(p).Absent?
    ensures Enabled(c, s, Restart(p)) && IsRun(c, states, events) && states[0] == Apply(c, s, Restart(p))
    ensures states[|events|].volume == s.volume && states[|events|].Of(p) == Serving(false)
  {
    var noEvents: seq<Event> := [];
    StepKeepsVolumes(c, s, Restart(p));
    StepKeepsPhases(c, s, Restart(p));
    states, events := ProbeInVain(c, [Apply(c, s, Restart(p))], noEvents, p);
    states, events := Extend(c, states, events, EndOfProbes(p));
    states, events := Extend(c, states, events, Skip(p));
    RunKeepsInv(c, states, events, |events|);
    states, events := FormattedPodCanFinish(c, states, events, p);
  }
}
