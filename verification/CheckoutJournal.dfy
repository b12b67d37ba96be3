/** The durable record of one checkout writer and the evidence that a recorded
    controller container has stopped: src/internal/workspace/checkout.go and
    src/internal/kubernetes/preparation.go. */
module CheckoutJournal {
  import opened Common

  /** The Pod name is determined by the Pod UID, so a process is the UID plus the container. */
  datatype Process = Process(podUid: string, containerId: string)

  datatype Grant = Grant(
    closed: bool,
    process: Option<Process>,
    needsFlush: bool,
    revoked: bool,
    session: bool,        // the grant belongs to a worker session
    stopRequested: bool,
    prepared: bool,
    state: string
  )

  predicate ValidProcess(p: Process) {
    p.podUid != "" && p.containerId != ""
  }

  predicate Startable(g: Grant) {
    && !g.closed && !g.stopRequested && !g.revoked && g.prepared
    && g.state in ["ready", "offered", "starting", "started"]
  }

  /** The four transitions; None is a refused transaction, which leaves the record as it was. */
  function Begin(g: Grant, p: Process): Option<Grant> {
    if ValidProcess(p) && Startable(g) && g.process.None?
    then Some(g.(process := Some(p), needsFlush := true)) else None
  }

  function Complete(g: Grant, p: Process): Option<Grant> {
    if g.process == Some(p) then Some(g.(process := None)) else None
  }

  function Close(g: Grant): Grant {
    g.(closed := true, revoked := g.revoked || g.session)
  }

  function Flushed(g: Grant): Option<Grant> {
    if g.closed && g.process.None? then Some(g.(needsFlush := false)) else None
  }

  /** A sequence of transactions on one grant, refused ones included. */
  datatype Transition = DoBegin(p: Process) | DoComplete(p: Process) | DoClose | DoFlushed

  function Transact(g: Grant, t: Transition): Grant {
    var next := match t
      case DoBegin(p) => Begin(g, p)
      case DoComplete(p) => Complete(g, p)
      case DoClose => Some(Close(g))
      case DoFlushed => Flushed(g);
    if next.Some? then next.value else g
  }

  function TransactAll(g: Grant, ts: seq<Transition>): Grant
    decreases |ts|
  {
    if ts == [] then g else TransactAll(Transact(g, ts[0]), ts[1..])
  }

  /** Closing is irreversible: whatever is attempted afterwards, the record stays closed, no
      writer is reserved unless it already was, and a discharged flush is not owed again. */
  lemma {:induction false} ClosedForever(g: Grant, ts: seq<Transition>)
    requires g.closed
    ensures var h := TransactAll(g, ts);
            && h.closed
            && (h.process == g.process || h.process.None?)
            && (!g.needsFlush ==> !h.needsFlush)
    decreases |ts|
  {
    if ts != [] {
      ClosedForever(Transact(g, ts[0]), ts[1..]);
    }
  }

  datatype Outcome = Accepted | Conflict | Unauthorized | Invalid

  /** The journal's grants. Each method is one transaction: accepted and published whole, or
      refused with nothing changed. */
  class Store {
    var grants: map<string, Grant>

    constructor (grants: map<string, Grant>)
      ensures this.grants == grants
    {
      this.grants := grants;
    }

    method Update(id: string, next: Option<Grant>) returns (r: Outcome)
      modifies this
      ensures id !in old(grants) ==> r == Unauthorized && grants == old(grants)
      ensures id in old(grants) && next.None? ==> r == Conflict && grants == old(grants)
      ensures id in old(grants) && next.Some? ==> r == Accepted && grants == old(grants)[id := next.value]
    {
      if id !in grants {
        return Unauthorized;
      }
      if next.None? {
        return Conflict;
      }
      grants := grants[id := next.value];
      r := Accepted;
    }

    method BeginCheckout(id: string, p: Process) returns (r: Outcome)
      modifies this
      ensures !ValidProcess(p) ==> r == Invalid && grants == old(grants)
      ensures id in old(grants) ==> grants == old(grants)[id := Transact(old(grants)[id], DoBegin(p))]
      ensures id !in old(grants) ==> r in {Invalid, Unauthorized} && grants == old(grants)
      ensures r == Accepted <==> id in old(grants) && Begin(old(grants)[id], p).Some?
    {
      if !ValidProcess(p) {
        assert id in grants ==> grants == grants[id := grants[id]];
        return Invalid;
      }
      r := Update(id, if id in grants then Begin(grants[id], p) else None);
    }

    method CompleteCheckout(id: string, p: Process) returns (r: Outcome)
      modifies this
      ensures id in old(grants) ==> grants == old(grants)[id := Transact(old(grants)[id], DoComplete(p))]
      ensures id !in old(grants) ==> r == Unauthorized && grants == old(grants)
      ensures r == Accepted <==> id in old(grants) && old(grants)[id].process == Some(p)
    {
      r := Update(id, if id in grants then Complete(grants[id], p) else None);
    }

    method CloseCheckouts(id: string) returns (r: Outcome)
      modifies this
      ensures id in old(grants) ==> r == Accepted && grants == old(grants)[id := Close(old(grants)[id])]
      ensures id !in old(grants) ==> r == Unauthorized && grants == old(grants)
    {
      r := Update(id, if id in grants then Some(Close(grants[id])) else None);
    }

    method CheckoutsFlushed(id: string) returns (r: Outcome)
      modifies this
      ensures id in old(grants) ==> grants == old(grants)[id := Transact(old(grants)[id], DoFlushed)]
      ensures id !in old(grants) ==> r == Unauthorized && grants == old(grants)
      ensures r == Accepted <==> id in old(grants) && old(grants)[id].closed && old(grants)[id].process.None?
    {
      r := Update(id, if id in grants then Flushed(grants[id]) else None);
    }
  }
}

/** What kubelet status says about a recorded controller container, against a model of the
    containers that really run. */
module ContainerEvidence {
  import opened Common
  import opened CheckoutJournal

  /** finishedAt == 0 is the zero timestamp. */
  datatype Termination = Termination(containerId: string, finishedAt: nat, reason: string)

  datatype ContainerStatus = ContainerStatus(
    name: string,
    containerId: string,
    restartCount: nat,
    runningSince: Option<nat>,
    terminated: Option<Termination>,
    lastTerminated: Option<Termination>
  )

  datatype PodStatus = PodStatus(uid: string, statuses: seq<ContainerStatus>)

  predicate ProvesTermination(t: Option<Termination>, p: Process) {
    t.Some? && t.value.containerId == p.containerId && t.value.finishedAt != 0 && t.value.reason != "ContainerStatusUnknown"
  }

  predicate ProvesReplacement(c: ContainerStatus, p: Process) {
    && c.runningSince.Some? && c.runningSince.value != 0
    && c.restartCount > 0 && c.containerId != "" && c.containerId != p.containerId
  }

  predicate Proves(c: ContainerStatus, p: Process) {
    && c.name == "controller"
    && (ProvesTermination(c.terminated, p) || ProvesTermination(c.lastTerminated, p) || ProvesReplacement(c, p))
  }

  /** PreparationStopped: None is a missing Pod, which proves nothing. */
  predicate PreparationStopped(pod: Option<PodStatus>, p: Process) {
    && pod.Some? && pod.value.uid == p.podUid && p.containerId != ""
    && exists i :: 0 <= i < |pod.value.statuses| && Proves(pod.value.statuses[i], p)
  }

  /** The containers of every controller Pod in start order, and those still running. */
  datatype Kube = Kube(history: map<string, seq<string>>, live: set<Process>)

  predicate Started(k: Kube, p: Process) {
    p.podUid in k.history && p.containerId in k.history[p.podUid]
  }

  predicate IsNewest(k: Kube, p: Process) {
    p.podUid in k.history && k.history[p.podUid] != [] &&
    k.history[p.podUid][|k.history[p.podUid]| - 1] == p.containerId
  }

  /** Kubelet replaces a named container only after stopping its previous instance. */
  predicate KubeOk(k: Kube) {
    forall p :: p in k.live ==> IsNewest(k, p)
  }

  predicate TruthfulStatus(k: Kube, uid: string, c: ContainerStatus) {
    && (c.terminated.Some? && c.terminated.value.finishedAt != 0 && c.terminated.value.reason != "ContainerStatusUnknown" ==>
          Process(uid, c.terminated.value.containerId) !in k.live)
    && (c.lastTerminated.Some? && c.lastTerminated.value.finishedAt != 0 && c.lastTerminated.value.reason != "ContainerStatusUnknown" ==>
          Process(uid, c.lastTerminated.value.containerId) !in k.live)
    && (c.runningSince.Some? && c.runningSince.value != 0 ==> IsNewest(k, Process(uid, c.containerId)))
  }

  predicate Truthful(k: Kube, pod: Option<PodStatus>) {
    pod.Some? ==> forall i :: 0 <= i < |pod.value.statuses| && pod.value.statuses[i].name == "controller" ==>
      TruthfulStatus(k, pod.value.uid, pod.value.statuses[i])
  }

  /** Positive evidence is never wrong: a container it names has stopped. */
  lemma {:induction false} EvidenceSound(k: Kube, pod: Option<PodStatus>, p: Process)
    requires KubeOk(k) && Truthful(k, pod) && PreparationStopped(pod, p)
    ensures p !in k.live
  {
    var i :| 0 <= i < |pod.value.statuses| && Proves(pod.value.statuses[i], p);
    var c := pod.value.statuses[i];
    assert TruthfulStatus(k, p.podUid, c);
    if ProvesReplacement(c, p) {
      assert IsNewest(k, Process(p.podUid, c.containerId));
    } else {
      assert Process(p.podUid, p.containerId) == p;
    }
  }
}
