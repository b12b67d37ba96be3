/** When the controller may conclude that a Pod's worker is gone (src/internal/kubernetes/termination.go),
    against a model of what a scheduler and a kubelet may do to that Pod. */
module PodLifecycle {
  import opened Common

  const TASK_VOLUME := "runtime-task"

  datatype RestartPolicy = Never | OnFailure | Always

  /** The parts of an immutable Pod spec that decide which containers may run: one init, one worker. */
  datatype Spec = Spec(
    restartPolicy: RestartPolicy,
    initName: string,
    initRestart: Option<RestartPolicy>,
    initMounts: seq<string>,
    appName: string,
    appRestart: Option<RestartPolicy>
  )

  datatype Run = NotStarted | Running | Exited(code: int)

  datatype Pod = Pod(spec: Spec, deleted: bool, bound: bool, init: Run, app: Run)

  datatype Step =
    | Delete
    | Bind
    | StartInit
    | ExitInit(code: int)
    | StartApp
    | ExitApp(code: int)
    | Idle

  function Created(spec: Spec): Pod {
    Pod(spec, false, false, NotStarted, NotStarted)
  }

  predicate Restarts(spec: Spec, own: Option<RestartPolicy>) {
    spec.restartPolicy != Never || own.Some?
  }

  predicate MayStart(r: Run, spec: Spec, own: Option<RestartPolicy>) {
    r.NotStarted? || (r.Exited? && Restarts(spec, own))
  }

  /** An init with its own restart policy is a sidecar: the worker starts beside it. */
  predicate Initialized(p: Pod) {
    p.init == Exited(0) || (p.spec.initRestart.Some? && p.init.Running?)
  }

  predicate Enabled(p: Pod, s: Step) {
    match s
    case Delete => true
    case Bind => !p.deleted && !p.bound
    case StartInit => p.bound && MayStart(p.init, p.spec, p.spec.initRestart)
    case ExitInit(_) => p.init.Running?
    case StartApp => p.bound && Initialized(p) && MayStart(p.app, p.spec, p.spec.appRestart)
    case ExitApp(_) => p.app.Running?
    case Idle => true
  }

  function Apply(p: Pod, s: Step): Pod {
    match s
    case Delete => p.(deleted := true)
    case Bind => p.(bound := true)
    case StartInit => p.(init := Running)
    case ExitInit(code) => p.(init := Exited(code))
    case StartApp => p.(app := Running)
    case ExitApp(code) => p.(app := Exited(code))
    case Idle => p
  }

  /** A history of one Pod from its creation. */
  ghost predicate History(h: seq<Pod>) {
    && |h| > 0
    && h[0] == Created(h[0].spec)
    && forall k :: 0 <= k < |h| - 1 ==> Next(h[k], h[k + 1])
  }

  ghost predicate Next(p: Pod, q: Pod) {
    exists s :: Enabled(p, s) && q == Apply(p, s)
  }

  /** Some container that can write the task tree is running. */
  predicate TaskInUse(p: Pod) {
    p.app.Running? || (p.init.Running? && TASK_VOLUME in p.spec.initMounts)
  }

  /** Unbound Pods run nothing, and without restarts a started worker means a successful init. */
  predicate Sound(p: Pod) {
    && (!p.bound ==> p.init.NotStarted? && p.app.NotStarted?)
    && (!p.app.NotStarted? && !Restarts(p.spec, p.spec.initRestart) ==> p.init == Exited(0))
  }

  lemma {:induction false} HistorySound(h: seq<Pod>, k: nat)
    requires History(h) && k < |h|
    ensures Sound(h[k]) && h[k].spec == h[0].spec
  {
    if k > 0 {
      HistorySound(h, k - 1);
      assert Next(h[k - 1], h[k - 1 + 1]);
    }
  }

  /** States that no later step leaves: a deleted unbound Pod, and containers that may not restart. */
  predicate DeadUnbound(p: Pod) { p.deleted && !p.bound }

  predicate InitOver(p: Pod, code: int) {
    p.init == Exited(code) && !Restarts(p.spec, p.spec.initRestart)
  }

  predicate AppOver(p: Pod) {
    p.app.Exited? && !Restarts(p.spec, p.spec.appRestart)
  }

  lemma {:induction false} DeadStaysDead(h: seq<Pod>, j: nat, k: nat)
    requires History(h) && j <= k < |h|
    ensures DeadUnbound(h[j]) ==> DeadUnbound(h[k])
    ensures forall code :: InitOver(h[j], code) ==> InitOver(h[k], code)
    ensures AppOver(h[j]) ==> AppOver(h[k])
    decreases k
  {
    if j < k {
      DeadStaysDead(h, j, k - 1);
      HistorySound(h, k - 1);
      assert Next(h[k - 1], h[k - 1 + 1]);
    }
  }

  lemma {:induction false} UnboundBefore(h: seq<Pod>, j: nat, k: nat)
    requires History(h) && j <= k < |h| && !h[k].bound
    ensures !h[j].bound
    decreases k
  {
    if j < k {
      assert Next(h[k - 1], h[k - 1 + 1]);
      UnboundBefore(h, j, k - 1);
    }
  }

  /** Without restarts an init that ended with a failure never succeeded before. */
  lemma {:induction false} FailedInitNeverSucceeded(h: seq<Pod>, j: nat, k: nat, code: int)
    requires History(h) && j <= k < |h| && InitOver(h[k], code) && code != 0
    ensures h[j].init != Exited(0)
  {
    if h[j].init == Exited(0) {
      HistorySound(h, j);
      HistorySound(h, k);
      DeadStaysDead(h, j, k);
      assert InitOver(h[j], 0);
    }
  }
}

module Termination {
  import opened Common
  import opened PodLifecycle

  /** A terminated record; a zero time is an unset timestamp. */
  datatype Record = Record(containerId: string, reason: string, startedAt: nat, finishedAt: nat, exitCode: int)

  /** image is the normalized image ID, None when it does not parse. lastKnown says that any
      lastTerminationState is present. */
  datatype ContainerStatus = ContainerStatus(
    name: string,
    containerId: string,
    imageId: string,
    image: Option<string>,
    restartCount: nat,
    started: bool,
    running: bool,
    waiting: bool,
    terminated: Option<Record>,
    lastKnown: bool
  )

  datatype Phase = Pending | PhaseRunning | Succeeded | Failed | Unknown

  datatype ConditionStatus = True | False | Indefinite

  datatype Condition = Condition(kind: string, status: ConditionStatus)

  /** One Pod as the API server returns it. */
  datatype View = View(
    spec: Spec,
    deletionTimestamp: bool,
    nodeName: string,
    startTime: bool,
    hostIP: string,
    reason: string,
    phase: Phase,
    conditions: seq<Condition>,
    inits: seq<ContainerStatus>,
    apps: seq<ContainerStatus>,
    ephemerals: nat
  )

  datatype Observation = Observation(stopped: bool, neverStarted: bool)

  const NOTHING := Observation(false, false)

  predicate OccursAt(s: string, t: string, i: nat) {
    i + |t| <= |s| && s[i..i + |t|] == t
  }

  predicate Contains(s: string, t: string) {
    exists i: nat :: i <= |s| && OccursAt(s, t, i)
  }

  predicate ExactTermination(s: ContainerStatus, name: string, image: string) {
    && s.name == name && s.restartCount == 0 && !s.running && !s.waiting
    && s.terminated.Some?
    && s.terminated.value.reason != "ContainerStatusUnknown"
    && s.terminated.value.reason != "ContainerStatusNeverStarted"
    && s.terminated.value.startedAt != 0 && s.terminated.value.finishedAt != 0
    && s.terminated.value.startedAt <= s.terminated.value.finishedAt
    && s.containerId != "" && s.terminated.value.containerId == s.containerId && Contains(s.containerId, "://")
    && !s.lastKnown
    && s.image == Some(image)
  }

  predicate NeverStarted(s: ContainerStatus, name: string) {
    && s.name == name && s.containerId == "" && s.imageId == "" && s.restartCount == 0
    && !s.started && !s.running && s.terminated.None? && s.waiting && !s.lastKnown
  }

  /** The first Initialized condition decides. */
  predicate Uninitialized(conditions: seq<Condition>)
    decreases conditions
  {
    if conditions == [] then false
    else if conditions[0].kind == "Initialized" then conditions[0].status == False
    else Uninitialized(conditions[1..])
  }

  predicate NeverScheduled(v: View) {
    && v.deletionTimestamp && v.nodeName == "" && !v.startTime
    && v.apps == [] && v.inits == [] && v.ephemerals == 0 && v.hostIP == ""
  }

  predicate Inconclusive(v: View) {
    || v.spec.restartPolicy != Never || v.nodeName == ""
    || v.spec.initRestart.Some? || v.spec.appRestart.Some?
    || v.reason == "NodeLost" || (v.phase != Failed && v.phase != Succeeded)
    || |v.inits| != 1 || |v.apps| > 1 || v.ephemerals != 0
  }

  function ObserveTermination(v: View, image: string): Observation {
    if NeverScheduled(v) then Observation(true, true)
    else if Inconclusive(v) then NOTHING
    else if !ExactTermination(v.inits[0], v.spec.initName, image) then NOTHING
    else if |v.apps| == 1 && ExactTermination(v.apps[0], v.spec.appName, image) then Observation(true, false)
    else if v.phase != Failed || v.inits[0].terminated.value.exitCode == 0 || !Uninitialized(v.conditions) then NOTHING
    else if TASK_VOLUME in v.spec.initMounts then NOTHING
    else if |v.apps| == 1 && !NeverStarted(v.apps[0], v.spec.appName) then NOTHING
    else Observation(true, true)
  }

  /** A terminated record that names a container and is not synthesized by the kubelet. */
  predicate Genuine(s: ContainerStatus) {
    && s.terminated.Some? && s.terminated.value.containerId != ""
    && s.terminated.value.reason != "ContainerStatusUnknown"
    && s.terminated.value.reason != "ContainerStatusNeverStarted"
  }

  predicate Reports(s: ContainerStatus, name: string, r: Run) {
    s.name == name && Genuine(s) ==> r == Exited(s.terminated.value.exitCode)
  }

  /** Metadata and binding are the API server's own; status is what a kubelet saw at an earlier
      moment, and its genuine records are true of that moment. */
  ghost predicate Truthful(v: View, seen: Pod, now: Pod) {
    && v.spec == now.spec && v.deletionTimestamp == now.deleted && (v.nodeName != "" <==> now.bound)
    && (forall i :: 0 <= i < |v.inits| ==> Reports(v.inits[i], v.spec.initName, seen.init))
    && (forall i :: 0 <= i < |v.apps| ==> Reports(v.apps[i], v.spec.appName, seen.app))
  }

  /** Whatever a Stopped observation rested on, no later step of any run lets a container that
      holds the task tree run again. */
  lemma {:induction false} StoppedStaysStopped(h: seq<Pod>, i: nat, j: nat, k: nat, v: View, image: string)
    requires History(h) && i <= j <= k < |h|
    requires Truthful(v, h[i], h[j])
    requires ObserveTermination(v, image).stopped
    ensures !TaskInUse(h[k])
  {
    HistorySound(h, i);
    HistorySound(h, j);
    HistorySound(h, k);
    if NeverScheduled(v) {
      DeadStaysDead(h, j, k);
    } else {
      InitRecordTrue(h, i, j, v, image);
      DeadStaysDead(h, i, k);
      var code := v.inits[0].terminated.value.exitCode;
      assert InitOver(h[k], code);
      if |v.apps| == 1 && ExactTermination(v.apps[0], v.spec.appName, image) {
        assert Reports(v.apps[0], v.spec.appName, h[i].app);
        assert AppOver(h[i]);
      }
    }
  }

  lemma {:induction false} InitRecordTrue(h: seq<Pod>, i: nat, j: nat, v: View, image: string)
    requires History(h) && i <= j < |h|
    requires Truthful(v, h[i], h[j])
    requires !Inconclusive(v) && ExactTermination(v.inits[0], v.spec.initName, image)
    ensures InitOver(h[i], v.inits[0].terminated.value.exitCode)
  {
    HistorySound(h, i);
    HistorySound(h, j);
    assert Reports(v.inits[0], v.spec.initName, h[i].init);
  }

  /** NeverStarted is about the whole history: at no moment, past or future, did the worker run or
      any container write the task tree. */
  lemma {:induction false} NeverStartedNeverRan(h: seq<Pod>, i: nat, j: nat, k: nat, v: View, image: string)
    requires History(h) && i <= j < |h| && k < |h|
    requires Truthful(v, h[i], h[j])
    requires ObserveTermination(v, image).neverStarted
    ensures h[k].app.NotStarted? && !TaskInUse(h[k])
  {
    HistorySound(h, j);
    HistorySound(h, k);
    if NeverScheduled(v) {
      if j <= k { DeadStaysDead(h, j, k); } else { UnboundBefore(h, k, j); }
    } else {
      InitRecordTrue(h, i, j, v, image);
      var code := v.inits[0].terminated.value.exitCode;
      if i <= k {
        DeadStaysDead(h, i, k);
        assert InitOver(h[k], code);
      } else {
        FailedInitNeverSucceeded(h, k, i, code);
      }
    }
  }

  /** What a kubelet that reports everything says of a Pod; init and app carry container IDs. */
  function FullStatus(name: string, r: Run, id: string, image: string): ContainerStatus {
    match r
    case NotStarted => ContainerStatus(name, "", "", None, 0, false, false, true, None, false)
    case Running => ContainerStatus(name, id, image, Some(image), 0, true, true, false, None, false)
    case Exited(code) => ContainerStatus(name, id, image, Some(image), 0, false, false, false,
      Some(Record(id, if code == 0 then "Completed" else "Error", 1, 2, code)), false)
  }

  predicate Over(p: Pod) {
    p.init.Exited? && (p.init.code != 0 || p.app.Exited?)
  }

  function FullView(p: Pod, node: string, id: string, image: string): View {
    View(p.spec, p.deleted, if p.bound then node else "", p.bound, if p.bound then node else "", "",
      if !Over(p) then PhaseRunning else if p.init.code == 0 && p.app == Exited(0) then Succeeded else Failed,
      [Condition("PodScheduled", if p.bound then True else False),
       Condition("Initialized", if p.init == Exited(0) then True else False)],
      if p.bound then [FullStatus(p.spec.initName, p.init, id, image)] else [],
      if p.bound then [FullStatus(p.spec.appName, p.app, id, image)] else [],
      0)
  }

  predicate NoRestarts(spec: Spec) {
    spec.restartPolicy == Never && spec.initRestart.None? && spec.appRestart.None?
  }

  /** On a full report the observation is exact: Stopped is reported precisely for a deleted Pod
      that was never bound, for a finished worker, and for a failed init without the task volume;
      NeverStarted precisely when, of these, the worker has not started. */
  lemma {:induction false} ExactOnFullReport(h: seq<Pod>, k: nat, node: string, id: string, image: string)
    requires History(h) && k < |h| && NoRestarts(h[k].spec)
    requires node != "" && Contains(id, "://")
    ensures Truthful(FullView(h[k], node, id, image), h[k], h[k])
    ensures ObserveTermination(FullView(h[k], node, id, image), image).stopped <==>
      || DeadUnbound(h[k])
      || (h[k].init.Exited? && h[k].app.Exited?)
      || (h[k].init.Exited? && h[k].init.code != 0 && TASK_VOLUME !in h[k].spec.initMounts)
    ensures ObserveTermination(FullView(h[k], node, id, image), image).neverStarted <==>
      h[k].app.NotStarted? && ObserveTermination(FullView(h[k], node, id, image), image).stopped
  {
    HistorySound(h, k);
    var p := h[k];
    var c := [Condition("PodScheduled", if p.bound then True else False),
       Condition("Initialized", if p.init == Exited(0) then True else False)];
    assert c[1..][0] == c[1];
    assert Uninitialized(c) == Uninitialized(c[1..]);
    assert Uninitialized(c) <==> p.init != Exited(0);
  }
}
