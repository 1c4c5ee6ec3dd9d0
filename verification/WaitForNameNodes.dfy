/** The wait-for-namenodes script of a DataNode pod: at most twelve rounds of probes over all
    NameNode ids, stopping after the first round in which every id answered. */
module WaitForNameNodes {

  const ROUNDS := 12

  /** What a probe prints for id `i` in round `n`. Each probe samples its NameNode at its own time. */
  type Samples = (nat, nat) -> string

  predicate Ready(serviceState: string)
  {
    serviceState == "active" || serviceState == "standby"
  }

  /** Round `n` sampled every id as ready. */
  predicate ReadyRound(samples: Samples, ids: nat, n: nat)
  {
    forall i | 0 <= i < ids :: Ready(samples(n, i))
  }

  /** The first ready round at or after `from`, or twelve when there is none. */
  function StopRound(samples: Samples, ids: nat, from: nat): (n: nat)
    requires from <= ROUNDS
    ensures from <= n <= ROUNDS
    ensures n < ROUNDS ==> ReadyRound(samples, ids, n)
    ensures forall m | from <= m < n :: !ReadyRound(samples, ids, m)
    decreases ROUNDS - from
  {
    if from == ROUNDS || ReadyRound(samples, ids, from) then from else StopRound(samples, ids, from + 1)
  }

  lemma OneMoreRound(ids: nat, n: nat)
    requires n < ROUNDS
    ensures ids * n + ids == ids * (n + 1) <= ROUNDS * ids
  {
  }

  /** One round: every id is probed, whatever the others printed. */
  method ProbeRound(ids: nat, samples: Samples, n: nat) returns (allNodesReady: bool, probes: nat)
    ensures allNodesReady <==> ReadyRound(samples, ids, n)
    ensures probes == ids
  {
    allNodesReady, probes := true, 0;
    for i := 0 to ids
      invariant allNodesReady <==> forall j | 0 <= j < i :: Ready(samples(n, j))
      invariant probes == i
    {
      var serviceState := samples(n, i);
      probes := probes + 1;
      if !Ready(serviceState) {
        allNodesReady := false;
      }
    }
  }

  /** The script's loop: at most twelve rounds, up to the first ready one. `status`, the exit status of
      the last command of the last round, a `break` or a `sleep`, is also the script's. */
  method Rounds(ids: nat, samples: Samples) returns (status: int, ready: bool, n: nat, probes: nat)
    ensures status == 0
    ensures n == StopRound(samples, ids, 0) && (ready <==> n < ROUNDS)
    ensures probes == ids * (if ready then n + 1 else n) <= ROUNDS * ids
  {
    status, ready, n, probes := 0, false, 0, 0;
    while n < ROUNDS
      invariant n <= ROUNDS && !ready && status == 0
      invariant StopRound(samples, ids, n) == StopRound(samples, ids, 0)
      invariant probes == ids * n
    {
      var allNodesReady, made := ProbeRound(ids, samples, n);
      probes := probes + made;
      OneMoreRound(ids, n);
      if allNodesReady {
        ready, status := true, 0;
        return;
      }
      n, status := n + 1, 0;
    }
  }

  /** The script over `ids` NameNodes: it ends like its loop, and so with 0 even if no round was
      ready. It stops in the first of twelve rounds in which every id was active or standby. */
  method Wait(ids: nat, samples: Samples) returns (exitCode: int, ready: bool, n: nat, probes: nat)
    ensures exitCode == 0
    ensures ready <==> exists m {:trigger ReadyRound(samples, ids, m)} | 0 <= m < 12 ::
              forall i | 0 <= i < ids :: samples(m, i) == "active" || samples(m, i) == "standby"
    ensures n == StopRound(samples, ids, 0) && (if ready then n < 12 else n == 12)
    ensures forall m {:trigger ReadyRound(samples, ids, m)} | 0 <= m < 12 && m <= n ::
              (forall i | 0 <= i < ids :: samples(m, i) == "active" || samples(m, i) == "standby") <==> m == n
    ensures probes == ids * (if ready then n + 1 else n) <= 12 * ids
  {
    exitCode, ready, n, probes := Rounds(ids, samples);
  }

  lemma SilentNameNode(ids: nat, down: nat, samples: Samples)
    requires down < ids && forall n: nat :: !Ready(samples(n, down))
    ensures StopRound(samples, ids, 0) == ROUNDS
  {
    var n := StopRound(samples, ids, 0);
    assert !Ready(samples(n, down));
  }

  /** Of any positive number of NameNodes, one that is never ready is enough for the script to end
      after all its rounds and their probes, with exit code 0 and not ready. */
  method WaitInVain(ids: nat, ghost down: nat, samples: Samples) returns (exitCode: int, ready: bool, probes: nat)
    requires down < ids && forall n: nat :: !Ready(samples(n, down))
    ensures exitCode == 0 && !ready && probes == 12 * ids
  {
    var n;
    exitCode, ready, n, probes := Rounds(ids, samples);
    SilentNameNode(ids, down, samples);
  }

  /** `history(i)(t)` is the service state of NameNode `i` at time `t`; the probe of id `i` in
      round `n` is taken at `clock(n, i)`. */
  ghost predicate SampledFrom(samples: Samples, ids: nat, history: nat -> nat -> string, clock: (nat, nat) -> nat)
  {
    forall n: nat, i: nat | i < ids :: samples(n, i) == history(i)(clock(n, i))
  }

  /** If from time `t` on every NameNode answers, and round `m` of the twelve starts no earlier
      than `t`, the script stops ready, in round `m` at the latest. */
  lemma SteadyNameNodesStopTheWait(ids: nat, samples: Samples, history: nat -> nat -> string,
                                   clock: (nat, nat) -> nat, t: nat, m: nat)
    requires SampledFrom(samples, ids, history, clock)
    requires forall i: nat, u: nat | i < ids && u >= t :: Ready(history(i)(u))
    requires m < ROUNDS && forall i: nat | i < ids :: clock(m, i) >= t
    ensures StopRound(samples, ids, 0) <= m
  {
    forall i: nat | i < ids ensures Ready(samples(m, i)) {
      assert samples(m, i) == history(i)(clock(m, i));
    }
    assert ReadyRound(samples, ids, m);
  }
}
