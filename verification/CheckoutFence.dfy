/** One attempt's checkout operation inside the running controller: the critical sections under
    checkoutMu of src/internal/controller/checkout.go. */
module CheckoutController {
  import opened Common
  import opened CheckoutJournal
  import opened ContainerEvidence

  /** An entry of checkoutOps; process is set once its reservation is in the journal. */
  datatype Op = Op(id: nat, process: Option<Process>, unproven: bool, cancelled: bool)

  /** What the controller knows of one attempt: its grant, its operation, the next fresh operation. */
  datatype Desk = Desk(grant: Grant, op: Option<Op>, next: nat, shutdown: bool)

  function Register(d: Desk): Option<Desk> {
    if d.shutdown || !Startable(d.grant) || d.op.Some? then None
    else Some(d.(op := Some(Op(d.next, None, false, false)), next := d.next + 1))
  }

  function Reserve(d: Desk, p: Process): Option<Desk> {
    if d.op.None? || d.op.value.process.Some? || Begin(d.grant, p).None? then None
    else Some(d.(grant := Begin(d.grant, p).value, op := Some(d.op.value.(process := Some(p)))))
  }

  /** saved is false when the journal could not record the completion. */
  function Finish(d: Desk, saved: bool): Desk
    requires d.op.Some?
  {
    var o := d.op.value;
    d.(op := None,
       grant := if o.process.Some? && !o.unproven && saved then Transact(d.grant, DoComplete(o.process.value)) else d.grant)
  }

  function Cancelled(op: Option<Op>): Option<Op> {
    if op.Some? then Some(op.value.(cancelled := true)) else None
  }

  function CloseAttempt(d: Desk): Desk {
    d.(grant := Close(d.grant), op := Cancelled(d.op))
  }

  /** What one operation may still do to its grant: reserve, and complete. */
  predicate OnlyReserved(g: Grant, n: Grant) {
    n == g.(process := n.process, needsFlush := n.needsFlush) && (g.needsFlush ==> n.needsFlush)
  }

  /** Operations have run out, those of the given attempts and no others. */
  predicate Ended(before: map<string, Grant>, ops: set<string>, now: map<string, Grant>) {
    && now.Keys == before.Keys
    && forall a :: a in now ==> OnlyReserved(before[a], now[a]) && (a !in ops ==> now[a] == before[a])
  }

  lemma {:induction false} EndedMore(before: map<string, Grant>, ops: set<string>, mid: map<string, Grant>, id: string, now: map<string, Grant>)
    requires Ended(before, ops, mid) && id in ops && id in mid && id in now && now == mid[id := now[id]] && OnlyReserved(mid[id], now[id])
    ensures Ended(before, ops, now)
  {
  }

  lemma {:induction false} UpdatedTwice(a: map<string, Grant>, b: map<string, Grant>, id: string, c: map<string, Grant>)
    requires id in a && id in b && id in c && b == a[id := b[id]] && c == b[id := c[id]]
    ensures c == a[id := c[id]] && c.Keys == a.Keys
  {
    assert c.Keys == a.Keys;
  }

  lemma {:induction false} FinishOnly(d: Desk, saved: bool)
    requires d.op.Some?
    ensures Finish(d, saved).grant == d.grant.(process := Finish(d, saved).grant.process)
  {
  }

  class Controller {
    const store: Store
    var checkoutOps: map<string, Op>
    var next: nat
    var checkoutClosed: bool

    constructor (store: Store)
      ensures this.store == store && checkoutOps == map[] && !checkoutClosed
    {
      this.store := store;
      checkoutOps, next, checkoutClosed := map[], 0, false;
    }

    function View(id: string): Desk
      requires id in store.grants
      reads this, store
    {
      Desk(store.grants[id], if id in checkoutOps then Some(checkoutOps[id]) else None, next, checkoutClosed)
    }

    /** Every operation is that of a known grant. */
    predicate Valid()
      reads this, store
    {
      checkoutOps.Keys <= store.grants.Keys
    }

    /** No other attempt's grant or operation is touched. */
    twostate predicate OthersKept(id: string)
      reads this, store
    {
      && store.grants.Keys == old(store.grants.Keys)
      && (forall a :: a in store.grants && a != id ==> store.grants[a] == old(store.grants)[a])
      && (forall a :: a != id ==> (a in checkoutOps <==> a in old(checkoutOps)))
      && (forall a :: a in checkoutOps && a != id ==> checkoutOps[a] == old(checkoutOps)[a])
    }

    /** beginCheckout: authorized is the outcome of the token, request and repository checks. */
    method BeginCheckout(id: string, authorized: bool) returns (ok: bool)
      requires Valid()
      modifies this
      ensures Valid()
      ensures ok <==> authorized && id in store.grants && old(Register(View(id))).Some?
      ensures ok ==> View(id) == old(Register(View(id))).value
      ensures id in store.grants && !ok ==> View(id) == old(View(id))
      ensures OthersKept(id)
    {
      if !authorized || id !in store.grants || checkoutClosed || !Startable(store.grants[id]) || id in checkoutOps {
        return false;
      }
      checkoutOps := checkoutOps[id := Op(next, None, false, false)];
      next := next + 1;
      ok := true;
    }

    method ReserveWriter(id: string, p: Process) returns (ok: bool)
      requires Valid() && id in checkoutOps && checkoutOps[id].process.None?
      modifies this, store
      ensures Valid() && checkoutClosed == old(checkoutClosed)
      ensures ok <==> old(Reserve(View(id), p)).Some?
      ensures id in store.grants
      ensures ok ==> View(id) == old(Reserve(View(id), p)).value
      ensures !ok ==> View(id) == old(View(id))
      ensures OthersKept(id)
      ensures checkoutOps.Keys == old(checkoutOps.Keys) && store.grants == old(store.grants)[id := store.grants[id]]
    {
      var r := store.BeginCheckout(id, p);
      ok := r == Accepted;
      if ok {
        checkoutOps := checkoutOps[id := checkoutOps[id].(process := Some(p))];
      }
    }

    method FinishCheckout(id: string, saved: bool)
      requires Valid() && id in checkoutOps
      modifies this, store
      ensures Valid() && checkoutClosed == old(checkoutClosed)
      ensures id in store.grants
      ensures View(id) == old(Finish(View(id), saved))
      ensures OthersKept(id)
      ensures checkoutOps == old(checkoutOps) - {id} && store.grants == old(store.grants)[id := store.grants[id]]
    {
      var op := checkoutOps[id];
      if op.process.Some? && !op.unproven && saved {
        var _ := store.CompleteCheckout(id, op.process.value);
      }
      checkoutOps := checkoutOps - {id};
    }

    /** The first section of stopCheckoutWriters: the fence is durable before the operation is read and
        cancelled. */
    method CloseWriters(id: string) returns (ok: bool, op: Option<Op>)
      requires Valid()
      modifies this, store
      ensures Valid()
      ensures ok <==> id in old(store.grants)
      ensures ok ==> id in store.grants
      ensures ok ==> View(id) == old(CloseAttempt(View(id))) && op == View(id).op
      ensures OthersKept(id)
    {
      var r := store.CloseCheckouts(id);
      ok := r == Accepted;
      op := None;
      if id in checkoutOps {
        checkoutOps := checkoutOps[id := checkoutOps[id].(cancelled := true)];
        op := Some(checkoutOps[id]);
      }
    }

    /** The first section of recoverCheckoutWriter: the process whose termination must be proven, if any. */
    method ReadForRecovery(id: string) returns (p: Option<Process>)
      requires id in store.grants
      ensures p == if View(id).op.Some? then None else View(id).grant.process
    {
      p := if id in checkoutOps then None else store.grants[id].process;
    }

    method CompleteRecovered(id: string, p: Process) returns (ok: bool)
      requires id in store.grants
      modifies store
      ensures ok <==> old(View(id).grant.process) == Some(p)
      ensures id in store.grants
      ensures View(id) == old(View(id)).(grant := Transact(old(View(id).grant), DoComplete(p)))
      ensures OthersKept(id)
    {
      var r := store.CompleteCheckout(id, p);
      ok := r == Accepted;
    }

    /** recoverCheckoutWriter: pod is what Kubernetes reports between its two sections, when other
        sections may run, and before is the attempt as the second section found it. On a closed attempt
        proven termination always leaves no recorded writer behind. */
    method RecoverCheckoutWriter(id: string, pod: Option<PodStatus>) returns (ok: bool, ghost read: Option<Process>, ghost before: Desk)
      requires Valid() && id in store.grants
      modifies this, store
      ensures Valid() && id in store.grants
      ensures read == if old(View(id)).op.Some? then None else old(View(id)).grant.process
      ensures read.None? ==> ok && View(id) == old(View(id))
      ensures read.Some? && !PreparationStopped(pod, read.value) ==> !ok && View(id) == old(View(id))
      ensures read.Some? && PreparationStopped(pod, read.value) ==>
        && (ok <==> before.grant.process == read)
        && View(id) == before.(grant := Transact(before.grant, DoComplete(read.value)))
        && (old(View(id)).grant.closed ==> View(id).grant.closed && View(id).grant.process.None?)
    {
      var p := ReadForRecovery(id);
      read, before := p, View(id);
      if p.None? {
        return true, read, before;
      }
      if !PreparationStopped(pod, p.value) {
        return false, read, before;
      }
      Meanwhile(id);
      before := View(id);
      ok := CompleteRecovered(id, p.value);
    }

    /** Any number of other sections on the same attempt. */
    method Meanwhile(id: string)
      requires Valid() && id in store.grants
      modifies this, store
      ensures Valid() && id in store.grants
      ensures old(View(id)).grant.closed ==> View(id).grant.closed && View(id).grant.process in {None, old(View(id)).grant.process}
    {
      var sections: nat := *;
      while sections > 0
        invariant Valid() && id in store.grants
        invariant old(View(id)).grant.closed ==> View(id).grant.closed && View(id).grant.process in {None, old(View(id)).grant.process}
      {
        OtherSection(id);
        sections := sections - 1;
      }
    }

    method OtherSection(id: string)
      requires Valid() && id in store.grants
      modifies this, store
      ensures Valid() && id in store.grants
      ensures old(View(id)).grant.closed ==> View(id).grant.closed && View(id).grant.process in {None, old(View(id)).grant.process}
    {
      var section: nat, flag: bool, p: Process := *, *, *;
      if section == 0 {
        var _ := BeginCheckout(id, flag);
      } else if section == 1 && id in checkoutOps && checkoutOps[id].process.None? {
        var _ := ReserveWriter(id, p);
      } else if section == 2 && id in checkoutOps {
        FinishCheckout(id, flag);
      } else if section == 3 {
        var _, _ := CloseWriters(id);
      } else if section == 4 {
        var _ := CompleteRecovered(id, p);
      }
    }

    /** closeCheckouts: nothing begins any more, every operation is cancelled and waited for. Until it
        ends an operation may still reserve. */
    method CloseCheckouts()
      requires Valid()
      modifies this, store
      ensures Valid() && checkoutClosed && checkoutOps == map[]
      ensures Ended(old(store.grants), old(checkoutOps.Keys), store.grants)
    {
      checkoutClosed := true;
      CancelAll();
      while checkoutOps != map[]
        invariant Valid() && checkoutClosed && checkoutOps.Keys <= old(checkoutOps.Keys)
        invariant Ended(old(store.grants), old(checkoutOps.Keys), store.grants)
        decreases checkoutOps.Keys
      {
        assert checkoutOps.Keys != {};
        var id :| id in checkoutOps;
        ghost var grants := store.grants;
        EndOperation(id);
        EndedMore(old(store.grants), old(checkoutOps.Keys), grants, id, store.grants);
      }
    }

    method CancelAll()
      requires Valid()
      modifies this`checkoutOps
      ensures Valid() && checkoutOps.Keys == old(checkoutOps.Keys)
      ensures forall id :: id in checkoutOps ==> checkoutOps[id] == old(checkoutOps)[id].(cancelled := true)
    {
      var rest := checkoutOps.Keys;
      while rest != {}
        invariant checkoutOps.Keys == old(checkoutOps.Keys)
        invariant forall id :: id in checkoutOps ==>
          checkoutOps[id] == if id in rest then old(checkoutOps)[id] else old(checkoutOps)[id].(cancelled := true)
      {
        var id :| id in rest;
        checkoutOps := checkoutOps[id := checkoutOps[id].(cancelled := true)];
        rest := rest - {id};
      }
    }

    /** A cancelled operation runs out, perhaps after reserving. */
    method EndOperation(id: string)
      requires Valid() && id in checkoutOps
      modifies this, store
      ensures Valid() && checkoutOps.Keys == old(checkoutOps.Keys) - {id} && checkoutClosed == old(checkoutClosed)
      ensures store.grants.Keys == old(store.grants.Keys) && OnlyReserved(old(store.grants)[id], store.grants[id])
      ensures store.grants == old(store.grants)[id := store.grants[id]]
    {
      MayReserve(id);
      var saved: bool := *;
      ghost var d, grants := View(id), store.grants;
      FinishCheckout(id, saved);
      assert store.grants[id] == View(id).grant;
      FinishOnly(d, saved);
      UpdatedTwice(old(store.grants), grants, id, store.grants);
    }

    method MayReserve(id: string)
      requires Valid() && id in checkoutOps
      modifies this, store
      ensures Valid() && checkoutOps.Keys == old(checkoutOps.Keys) && checkoutClosed == old(checkoutClosed)
      ensures store.grants.Keys == old(store.grants.Keys) && OnlyReserved(old(store.grants)[id], store.grants[id])
      ensures store.grants == old(store.grants)[id := store.grants[id]]
    {
      var reserves: bool, p: Process := *, *;
      if reserves && checkoutOps[id].process.None? {
        var ok := ReserveWriter(id, p);
        assert store.grants[id] == View(id).grant;
      }
    }
  }
}

/** The whole protocol around one attempt as a step system: concurrent recoveries and stops,
    controller crashes and restarts between any two steps, kubelet evidence, and a log of the
    tree writes, syncs and acknowledgements that really happened. */
module CheckoutFence {
  import opened Common
  import opened CheckoutJournal
  import opened ContainerEvidence
  import opened CheckoutController

  /** Recovery is the periodic reconciler; the two stops acknowledge a worker. */
  datatype Kind = Recovery | TaskStop | SessionStop

  datatype Phase =
    | Waiting(op: nat)
    | Draining
    | Probing(process: Process)
    | Completing(process: Process)
    | Fetching
    | Syncing
    | Flushing
    | Ready

  datatype Thread = Thread(kind: Kind, phase: Phase)

  /** Code that can touch the task tree: the container it runs in and the operation it serves. */
  datatype Writer = Writer(process: Process, op: nat)

  datatype Effect = Write(writer: Writer) | Sync | Ack

  /** self is the container that holds the journal lock. */
  datatype State = State(
    desk: Desk,
    self: Option<Process>,
    kube: Kube,
    threads: map<nat, Thread>,
    writers: set<Writer>,
    log: seq<Effect>
  )

  datatype Step =
    | DoRegister
    | DoReserve(observed: Process)
    | DoWrite(writer: Writer)
    | LoseChild
    | DoFinish(saved: bool)
    | Shutdown
    | Crash
    | Terminate(process: Process)
    | Start(process: Process)
    | Amend(grant: Grant)
    | Recover(t: nat)
    | Stop(t: nat, kind: Kind)
    | WaitDone(t: nat)
    | Read(t: nat)
    | Probe(t: nat, pod: Option<PodStatus>)
    | CompleteRecovery(t: nat)
    | Fetch(t: nat)
    | SyncTree(t: nat)
    | RecordFlush(t: nat)
    | Acknowledge(t: nat)
    | Abandon(t: nat)

  predicate Enabled(s: State, e: Step) {
    match e
    case DoRegister => s.self.Some? && Register(s.desk).Some?
    case DoReserve(p) => s.self.Some? && Reserve(s.desk, p).Some?
    case DoWrite(w) => w in s.writers
    case LoseChild => s.self.Some? && s.desk.op.Some? && s.desk.op.value.process.Some?
    case DoFinish(_) => s.self.Some? && s.desk.op.Some?
    case Shutdown => s.self.Some?
    case Crash => s.self.Some?
    case Terminate(p) => p in s.kube.live
    case Start(p) => s.self.None? && ValidProcess(p) && !Started(s.kube, p) && (forall q :: q in s.kube.live ==> q.podUid != p.podUid)
    case Amend(g) => s.self.Some? && g.closed == s.desk.grant.closed && g.process == s.desk.grant.process
                     && g.needsFlush == s.desk.grant.needsFlush && g.session == s.desk.grant.session
    case Recover(t) => s.self.Some? && t !in s.threads
    case Stop(t, k) => s.self.Some? && t !in s.threads && k != Recovery
    case WaitDone(t) => t in s.threads && s.threads[t].phase.Waiting? && (s.desk.op.None? || s.desk.op.value.id != s.threads[t].phase.op)
    case Read(t) => t in s.threads && s.threads[t].phase.Draining?
    case Probe(t, pod) => t in s.threads && s.threads[t].phase.Probing? && Truthful(s.kube, pod)
    case CompleteRecovery(t) => t in s.threads && s.threads[t].phase.Completing?
    case Fetch(t) => t in s.threads && s.threads[t].phase.Fetching?
    case SyncTree(t) => t in s.threads && s.threads[t].phase.Syncing?
    case RecordFlush(t) => t in s.threads && s.threads[t].phase.Flushing?
    case Acknowledge(t) => t in s.threads && s.threads[t].phase.Ready?
    case Abandon(t) => t in s.threads
  }

  function Goto(s: State, t: nat, phase: Phase): State
    requires t in s.threads
  {
    s.(threads := s.threads[t := s.threads[t].(phase := phase)])
  }

  function Quit(s: State, t: nat): State {
    s.(threads := s.threads - {t})
  }

  /** A recovery ends where a stop goes on to read the grant. */
  function Drained(s: State, t: nat): State
    requires t in s.threads
  {
    if s.threads[t].kind == Recovery then Quit(s, t) else Goto(s, t, Fetching)
  }

  function Fall(s: State): State {
    s.(self := None, desk := s.desk.(op := None, shutdown := false), threads := map[])
  }

  function Apply(s: State, e: Step): State
    requires Enabled(s, e)
  {
    match e
    case DoRegister => s.(desk := Register(s.desk).value)
    case DoReserve(p) =>
      var d := Reserve(s.desk, p).value;
      s.(desk := d, writers := s.writers + {Writer(s.self.value, d.op.value.id)})
    case DoWrite(w) => s.(log := s.log + [Write(w)])
    case LoseChild => s.(desk := s.desk.(op := Some(s.desk.op.value.(unproven := true))))
    case DoFinish(saved) =>
      var o := s.desk.op.value;
      s.(desk := Finish(s.desk, saved),
         writers := if o.unproven then s.writers else set w | w in s.writers && w.op != o.id)
    case Shutdown => s.(desk := s.desk.(shutdown := true, op := Cancelled(s.desk.op)))
    case Crash => Fall(s)
    case Terminate(p) =>
      var s1 := s.(kube := s.kube.(live := s.kube.live - {p}), writers := set w | w in s.writers && w.process != p);
      if s.self == Some(p) then Fall(s1) else s1
    case Start(p) =>
      var earlier := if p.podUid in s.kube.history then s.kube.history[p.podUid] else [];
      s.(self := Some(p), kube := Kube(s.kube.history[p.podUid := earlier + [p.containerId]], s.kube.live + {p}))
    case Amend(g) => s.(desk := s.desk.(grant := g))
    case Recover(t) => s.(threads := s.threads[t := Thread(Recovery, Draining)])
    case Stop(t, k) =>
      var d := CloseAttempt(s.desk);
      s.(desk := d, threads := s.threads[t := Thread(k, if d.op.Some? then Waiting(d.op.value.id) else Draining)])
    case WaitDone(t) => Goto(s, t, Draining)
    case Read(t) =>
      if s.desk.op.Some? || s.desk.grant.process.None? then Drained(s, t)
      else Goto(s, t, Probing(s.desk.grant.process.value))
    case Probe(t, pod) =>
      var p := s.threads[t].phase.process;
      if PreparationStopped(pod, p) then Goto(s, t, Completing(p)) else Quit(s, t)
    case CompleteRecovery(t) =>
      var p := s.threads[t].phase.process;
      if s.desk.grant.process == Some(p)
      then Drained(s.(desk := s.desk.(grant := Transact(s.desk.grant, DoComplete(p)))), t)
      else Quit(s, t)
    case Fetch(t) =>
      if s.threads[t].kind == SessionStop then
        if s.desk.grant.process.Some? || !s.desk.grant.closed then Quit(s, t) else Goto(s, t, Syncing)
      else if s.desk.grant.needsFlush then Goto(s, t, Syncing) else Goto(s, t, Ready)
    case SyncTree(t) => Goto(s, t, Flushing).(log := s.log + [Sync])
    case RecordFlush(t) =>
      if Flushed(s.desk.grant).Some? then Goto(s, t, Ready).(desk := s.desk.(grant := Flushed(s.desk.grant).value)) else Quit(s, t)
    case Acknowledge(t) =>
      var g := s.desk.grant;
      if s.threads[t].kind == SessionStop && (!g.closed || g.needsFlush || g.process.Some?) then Quit(s, t)
      else Quit(s, t).(log := s.log + [Ack])
    case Abandon(t) => Quit(s, t)
  }

  /** A tree write that no later sync covers. */
  predicate Unsynced(log: seq<Effect>) {
    exists i :: 0 <= i < |log| && log[i].Write? && forall j :: i < j < |log| ==> !log[j].Sync?
  }

  /** The guarantee of an acknowledgement: every write is before it, with a sync in between. */
  predicate Fenced(log: seq<Effect>) {
    forall i, a :: 0 <= i < |log| && 0 <= a < |log| && log[i].Write? && log[a].Ack? ==>
      i < a && exists k :: i < k < a && log[k].Sync?
  }

  predicate Acked(log: seq<Effect>) {
    exists a :: 0 <= a < |log| && log[a].Ack?
  }

  predicate WritersOk(s: State) {
    && (forall w :: w in s.writers ==>
          w.process in s.kube.live && s.desk.grant.process == Some(w.process) && w.op < s.desk.next)
    && (forall v, w :: v in s.writers && w in s.writers ==> v == w)
  }

  predicate OpOk(s: State) {
    && (s.self.None? ==> s.desk.op.None? && s.threads == map[])
    && (s.self.Some? ==> s.self.value in s.kube.live && Started(s.kube, s.self.value))
    && (s.desk.op.Some? ==>
          var o := s.desk.op.value;
          && o.id < s.desk.next
          && (o.process.Some? ==> o.process == s.self && s.desk.grant.process == o.process && (forall w :: w in s.writers ==> w.op == o.id))
          && (o.process.None? ==> forall w :: w in s.writers ==> w.op != o.id))
  }

  predicate JournalOk(s: State) {
    && (s.desk.grant.process.Some? ==> Started(s.kube, s.desk.grant.process.value) && s.desk.grant.needsFlush)
    && (Unsynced(s.log) ==> s.desk.grant.needsFlush)
    && Fenced(s.log)
    && (Acked(s.log) ==> s.desk.grant.closed && s.desk.grant.process.None? && !s.desk.grant.needsFlush)
  }

  predicate ThreadOk(s: State, t: Thread) {
    && (t.kind != Recovery ==> s.desk.grant.closed)
    && (t.phase.Waiting? ==> t.kind != Recovery && (s.desk.op.Some? ==> s.desk.op.value.id == t.phase.op))
    && (!t.phase.Waiting? && t.kind != Recovery ==> s.desk.op.None?)
    && (t.phase.Probing? || t.phase.Completing? ==> Started(s.kube, t.phase.process))
    && (t.phase.Completing? ==> t.phase.process !in s.kube.live)
    && (t.phase.Fetching? || t.phase.Syncing? || t.phase.Flushing? || t.phase.Ready? ==>
          t.kind != Recovery && s.desk.grant.process.None?)
    && (t.phase.Flushing? ==> !Unsynced(s.log))
    && (t.phase.Ready? ==> !s.desk.grant.needsFlush)
  }

  predicate ThreadsOk(s: State) {
    forall t :: t in s.threads ==> ThreadOk(s, s.threads[t])
  }

  predicate Inv(s: State) {
    KubeOk(s.kube) && WritersOk(s) && OpOk(s) && JournalOk(s) && ThreadsOk(s)
  }

  predicate Init(s: State) {
    && s.self.None? && s.desk.op.None? && s.threads == map[] && s.writers == {} && s.log == []
    && s.kube == Kube(map[], {}) && s.desk.grant.process.None? && !s.desk.grant.closed
  }

  /** ControllerProcess observes the container the controller itself runs in. */
  predicate SelfObserved(s: State, e: Step) {
    e.DoReserve? ==> Some(e.observed) == s.self
  }

  lemma {:induction false} WriteUnsyncs(log: seq<Effect>, e: Effect)
    ensures e.Sync? ==> !Unsynced(log + [e])
    ensures e.Ack? ==> (Unsynced(log + [e]) <==> Unsynced(log))
    ensures e.Ack? && Fenced(log) && !Unsynced(log) ==> Fenced(log + [e])
    ensures !e.Ack? && Fenced(log) && (e.Write? ==> !Acked(log)) ==> Fenced(log + [e])
    ensures !e.Ack? ==> (Acked(log + [e]) <==> Acked(log))
  {
    var m := log + [e];
    assert forall i :: 0 <= i < |log| ==> m[i] == log[i];
    assert m[|log|] == e;
    if e.Ack? {
      if Unsynced(log) {
        var i :| 0 <= i < |log| && log[i].Write? && forall j :: i < j < |log| ==> !log[j].Sync?;
        assert m[i].Write? && forall j :: i < j < |m| ==> !m[j].Sync?;
      } else if Fenced(log) {
        forall i, a | 0 <= i < |m| && 0 <= a < |m| && m[i].Write? && m[a].Ack?
          ensures i < a && exists k :: i < k < a && m[k].Sync?
        {
          assert log[i].Write?;
          if a < |log| {
            var k :| i < k < a && log[k].Sync?;
            assert m[k].Sync?;
          } else {
            var k :| i < k < |log| && log[k].Sync?;
            assert m[k].Sync?;
          }
        }
      }
      if Unsynced(m) {
        var i :| 0 <= i < |m| && m[i].Write? && forall j :: i < j < |m| ==> !m[j].Sync?;
        assert log[i].Write? && forall j :: i < j < |log| ==> !m[j].Sync?;
      }
    } else {
      if Fenced(log) && (e.Write? ==> !Acked(log)) {
        forall i, a | 0 <= i < |m| && 0 <= a < |m| && m[i].Write? && m[a].Ack?
          ensures i < a && exists k :: i < k < a && m[k].Sync?
        {
          assert log[a].Ack?;
          assert i < |log|;
          var k :| i < k < a && log[k].Sync?;
          assert m[k].Sync?;
        }
      }
      if Acked(log) {
        var a :| 0 <= a < |log| && log[a].Ack?;
        assert m[a].Ack?;
      }
    }
  }

  predicate OperationStep(e: Step) {
    e.DoRegister? || e.DoReserve? || e.DoWrite? || e.LoseChild? || e.DoFinish?
  }

  predicate WorldStep(e: Step) {
    e.Shutdown? || e.Crash? || e.Terminate? || e.Start? || e.Amend?
  }

  lemma {:induction false} OperationKeepsInv(s: State, e: Step)
    requires Inv(s) && Enabled(s, e) && SelfObserved(s, e) && OperationStep(e)
    ensures Inv(Apply(s, e))
  {
    if e.DoWrite? {
      WriteUnsyncs(s.log, Write(e.writer));
    }
  }

  lemma {:induction false} WorldKeepsInv(s: State, e: Step)
    requires Inv(s) && Enabled(s, e) && WorldStep(e)
    ensures Inv(Apply(s, e))
  {
    match e
    case Start(_) => StartKeepsInv(s, e);
    case Terminate(p) => TerminateKeepsInv(s, p);
    case _ =>
  }

  lemma {:induction false} TerminateKeepsInv(s: State, p: Process)
    requires Inv(s) && Enabled(s, Terminate(p))
    ensures Inv(Apply(s, Terminate(p)))
  {
    var s' := Apply(s, Terminate(p));
    assert s'.desk.grant == s.desk.grant && s'.log == s.log;
    forall t | t in s'.threads ensures ThreadOk(s', s'.threads[t]) {
      assert ThreadOk(s, s.threads[t]);
    }
  }

  lemma {:induction false} StartKeepsInv(s: State, e: Step)
    requires Inv(s) && Enabled(s, e) && e.Start?
    ensures Inv(Apply(s, e))
  {
    var s', p := Apply(s, e), e.process;
    assert forall q :: Started(s.kube, q) ==> Started(s'.kube, q);
    forall q | q in s'.kube.live ensures IsNewest(s'.kube, q) {
      assert q == p || IsNewest(s.kube, q);
    }
    assert s'.kube.history[p.podUid][|s'.kube.history[p.podUid]| - 1] == p.containerId;
  }

  predicate EvidenceStep(e: Step) {
    e.Probe? || e.CompleteRecovery?
  }

  predicate FlushStep(e: Step) {
    e.SyncTree? || e.RecordFlush? || e.Acknowledge?
  }

  lemma {:induction false} ProbeKeepsInv(s: State, t: nat, pod: Option<PodStatus>)
    requires Inv(s) && Enabled(s, Probe(t, pod))
    ensures Inv(Apply(s, Probe(t, pod)))
  {
    var p := s.threads[t].phase.process;
    assert ThreadOk(s, s.threads[t]);
    if PreparationStopped(pod, p) {
      EvidenceSound(s.kube, pod, p);
    }
    var s' := Apply(s, Probe(t, pod));
    assert s' == s.(threads := s'.threads);
    forall u | u in s'.threads ensures ThreadOk(s', s'.threads[u]) {
      assert u == t || ThreadOk(s, s.threads[u]);
    }
  }

  lemma {:induction false} CompletionKeepsInv(s: State, t: nat)
    requires Inv(s) && Enabled(s, CompleteRecovery(t))
    ensures Inv(Apply(s, CompleteRecovery(t)))
  {
    assert ThreadOk(s, s.threads[t]);
    var s' := Apply(s, CompleteRecovery(t));
    assert s'.log == s.log && s'.kube == s.kube && s'.writers <= s.writers;
    forall u | u in s'.threads ensures ThreadOk(s', s'.threads[u]) {
      assert u == t || ThreadOk(s, s.threads[u]);
    }
  }

  lemma {:induction false} EvidenceKeepsInv(s: State, e: Step)
    requires Inv(s) && Enabled(s, e) && EvidenceStep(e)
    ensures Inv(Apply(s, e))
  {
    match e
    case Probe(t, pod) => ProbeKeepsInv(s, t, pod);
    case CompleteRecovery(t) => CompletionKeepsInv(s, t);
  }

  lemma {:induction false} FlushKeepsInv(s: State, e: Step)
    requires Inv(s) && Enabled(s, e) && FlushStep(e)
    ensures Inv(Apply(s, e))
  {
    assert ThreadOk(s, s.threads[e.t]);
    WriteUnsyncs(s.log, if e.SyncTree? then Sync else Ack);
  }

  lemma {:induction false} StopKeepsInv(s: State, e: Step)
    requires Inv(s) && Enabled(s, e) && e.Stop?
    ensures Inv(Apply(s, e))
  {
    var s' := Apply(s, e);
    forall t | t in s'.threads ensures ThreadOk(s', s'.threads[t]) {
      assert t == e.t || ThreadOk(s, s.threads[t]);
    }
  }

  /** Steps that only move a thread. */
  lemma {:induction false} ThreadKeepsInv(s: State, e: Step)
    requires Inv(s) && Enabled(s, e)
    requires e.Recover? || e.WaitDone? || e.Read? || e.Fetch? || e.Abandon?
    ensures Inv(Apply(s, e))
  {
    var s' := Apply(s, e);
    assert s' == s.(threads := s'.threads);
    forall t | t in s'.threads ensures ThreadOk(s', s'.threads[t]) {
      assert e.Recover? || ThreadOk(s, s.threads[e.t]);
      assert t == e.t || ThreadOk(s, s.threads[t]);
    }
  }

  lemma {:induction false} StepKeepsInv(s: State, e: Step)
    requires Inv(s) && Enabled(s, e) && SelfObserved(s, e)
    ensures Inv(Apply(s, e))
  {
    if OperationStep(e) {
      OperationKeepsInv(s, e);
    } else if WorldStep(e) {
      WorldKeepsInv(s, e);
    } else if EvidenceStep(e) {
      EvidenceKeepsInv(s, e);
    } else if FlushStep(e) {
      FlushKeepsInv(s, e);
    } else if e.Stop? {
      StopKeepsInv(s, e);
    } else {
      ThreadKeepsInv(s, e);
    }
  }

  /** Any run from the start, in which every reservation named the container that made it. */
  ghost predicate Run(states: seq<State>, steps: seq<Step>) {
    && |states| == |steps| + 1 && Init(states[0])
    && forall i :: 0 <= i < |steps| ==>
         Enabled(states[i], steps[i]) && SelfObserved(states[i], steps[i]) && states[i + 1] == Apply(states[i], steps[i])
  }

  lemma {:induction false} RunKeepsInv(states: seq<State>, steps: seq<Step>, i: nat)
    requires Run(states, steps) && i < |states|
    ensures Inv(states[i])
  {
    if i > 0 {
      RunKeepsInv(states, steps, i - 1);
      StepKeepsInv(states[i - 1], steps[i - 1]);
    }
  }

  /** Once a stop is acknowledged, in every later state no writer exists and none can start, and
      each write that ever happened precedes a sync that precedes the acknowledgement. */
  lemma {:induction false} AcknowledgedStopHolds(states: seq<State>, steps: seq<Step>, i: nat, j: nat)
    requires Run(states, steps) && i <= j < |states| && Acked(states[i].log)
    ensures Acked(states[j].log) && Fenced(states[j].log)
    ensures states[j].writers == {} && states[j].desk.grant.closed && !states[j].desk.grant.needsFlush
    ensures j < |steps| ==> !steps[j].DoWrite? && !steps[j].DoReserve? && !steps[j].DoRegister?
    decreases j - i
  {
    RunKeepsInv(states, steps, j);
    if i < j {
      RunKeepsInv(states, steps, i);
      AckedStays(states[i], steps[i]);
      AcknowledgedStopHolds(states, steps, i + 1, j);
    }
  }

  lemma {:induction false} AckedStays(s: State, e: Step)
    requires Enabled(s, e) && Acked(s.log)
    ensures Acked(Apply(s, e).log)
  {
    var a :| 0 <= a < |s.log| && s.log[a].Ack?;
    assert s.log <= Apply(s, e).log;
    assert Apply(s, e).log[a].Ack?;
  }

  /** At most one checkout writer exists, and the journal names the live container it runs in. */
  lemma {:induction false} OneWriterNamedByJournal(states: seq<State>, steps: seq<Step>, i: nat, v: Writer, w: Writer)
    requires Run(states, steps) && i < |states| && v in states[i].writers && w in states[i].writers
    ensures v == w && v.process in states[i].kube.live
    ensures states[i].desk.grant.process == Some(v.process) && states[i].desk.grant.needsFlush
  {
    RunKeepsInv(states, steps, i);
  }

  /** What a recovery reads while no operation is registered decides everything: without a recorded
      process no writer is left, and otherwise only that container can hold one, so that its end,
      once proven, is the end of all writers. */
  lemma {:induction false} RecoveryReadsTheWriter(states: seq<State>, steps: seq<Step>, i: nat)
    requires Run(states, steps) && i < |states| && states[i].desk.op.None?
    ensures var recorded := states[i].desk.grant.process;
      && (recorded.None? ==> states[i].writers == {})
      && (recorded.Some? ==> Started(states[i].kube, recorded.value))
      && (forall w :: w in states[i].writers ==> recorded == Some(w.process))
      && (recorded.Some? && recorded.value !in states[i].kube.live ==> states[i].writers == {})
  {
    RunKeepsInv(states, steps, i);
  }

  /** However late a recovery completes, the reservation it clears has no writer left and is not
      the one of an operation in progress. */
  lemma {:induction false} RecoveryNeverCompletesNewer(states: seq<State>, steps: seq<Step>, i: nat)
    requires Run(states, steps) && i < |steps| && steps[i].CompleteRecovery?
    requires states[i].desk.grant.process == Some(states[i].threads[steps[i].t].phase.process)
    ensures states[i].writers == {}
    ensures states[i].desk.op.Some? ==> states[i].desk.op.value.process.None?
    ensures states[i + 1].desk.grant == states[i].desk.grant.(process := None)
  {
    RunKeepsInv(states, steps, i);
    assert ThreadOk(states[i], states[i].threads[steps[i].t]);
  }

  /** steps lead from s to s', every later reservation naming its own container. */
  ghost predicate Leads(s: State, steps: seq<Step>, s': State)
    decreases |steps|
  {
    if steps == [] then s == s'
    else Enabled(s, steps[0]) && SelfObserved(s, steps[0]) && Leads(Apply(s, steps[0]), steps[1..], s')
  }

  lemma {:induction false} LeadsKeepsInv(s: State, steps: seq<Step>, s': State)
    requires Inv(s) && Leads(s, steps, s')
    ensures Inv(s')
    decreases |steps|
  {
    if steps != [] {
      StepKeepsInv(s, steps[0]);
      LeadsKeepsInv(Apply(s, steps[0]), steps[1..], s');
    }
  }

  lemma {:induction false} LeadsAppend(s: State, steps: seq<Step>, m: State, e: Step)
    requires Leads(s, steps, m) && Enabled(m, e) && SelfObserved(m, e)
    ensures Leads(s, steps + [e], Apply(m, e))
    decreases |steps|
  {
    if steps == [] {
      assert (steps + [e])[1..] == [];
    } else {
      LeadsAppend(Apply(s, steps[0]), steps[1..], m, e);
      assert (steps + [e])[1..] == steps[1..] + [e];
    }
  }

  /** A reservation under another container's name, its writer surviving its operation. */
  ghost predicate Misnamed(s: State, p: Process, w: Writer) {
    w in s.writers && w.process != p && s.self == Some(w.process) && s.desk.grant.process == Some(p) && s.desk.grant.needsFlush
  }

  /** A terminated container's record, as kubelet reports it. */
  function StoppedStatus(p: Process): Option<PodStatus> {
    Some(PodStatus(p.podUid, [ContainerStatus("controller", p.containerId, 0, None, Some(Termination(p.containerId, 1, "Error")), None)]))
  }

  ghost predicate Reaches(s: State, s': State) {
    exists steps :: Leads(s, steps, s')
  }

  lemma {:induction false} ReachesOne(s: State, e: Step)
    requires Enabled(s, e) && SelfObserved(s, e)
    ensures Reaches(s, Apply(s, e))
  {
    assert Leads(s, [], s);
    LeadsAppend(s, [], s, e);
  }

  lemma {:induction false} ReachesThen(s: State, m: State, e: Step)
    requires Reaches(s, m) && Enabled(m, e) && SelfObserved(m, e)
    ensures Reaches(s, Apply(m, e))
  {
    var steps :| Leads(s, steps, m);
    LeadsAppend(s, steps, m, e);
  }

  lemma {:induction false} MisnamedDrains(s: State, p: Process, w: Writer) returns (s': State)
    requires Misnamed(s, p, w) && s.desk.op.Some? && s.desk.op.value.process.Some?
    ensures Reaches(s, s') && Misnamed(s', p, w) && s'.desk.op.None? && p !in s'.kube.live && s'.threads == s.threads
  {
    s' := Apply(s, LoseChild);
    ReachesOne(s, LoseChild);
    ReachesThen(s, s', DoFinish(true));
    s' := Apply(s', DoFinish(true));
    if p in s'.kube.live {
      ReachesThen(s, s', Terminate(p));
      s' := Apply(s', Terminate(p));
    }
  }

  predicate Settling(s: State, t: nat, w: Writer) {
    && w in s.writers && t in s.threads && s.threads[t].phase.Syncing?
    && s.threads[t].kind == TaskStop && s.desk.grant.closed && s.desk.grant.process.None?
  }

  lemma {:induction false} StoppedProven(k: Kube, p: Process)
    requires p !in k.live && p.containerId != ""
    ensures Truthful(k, StoppedStatus(p)) && PreparationStopped(StoppedStatus(p), p)
  {
    assert Proves(StoppedStatus(p).value.statuses[0], p);
  }

  lemma {:induction false} MisnamedStops(s0: State, s: State, p: Process, w: Writer, t: nat) returns (s': State)
    requires Reaches(s0, s)
    requires Misnamed(s, p, w) && s.desk.op.None? && t !in s.threads
    ensures Reaches(s0, s') && s' == s.(desk := CloseAttempt(s.desk), threads := s.threads[t := Thread(TaskStop, Probing(p))])
  {
    ReachesThen(s0, s, Stop(t, TaskStop));
    s' := Apply(s, Stop(t, TaskStop));
    ReachesThen(s0, s', Read(t));
    s' := Apply(s', Read(t));
  }

  lemma {:induction false} MisnamedProves(s0: State, s: State, p: Process, w: Writer, t: nat) returns (s': State)
    requires Reaches(s0, s)
    requires Misnamed(s, p, w) && s.desk.op.None? && p !in s.kube.live && p.containerId != "" && t !in s.threads
    ensures Reaches(s0, s') && s' == s.(desk := CloseAttempt(s.desk), threads := s.threads[t := Thread(TaskStop, Completing(p))])
  {
    s' := MisnamedStops(s0, s, p, w, t);
    StoppedProven(s.kube, p);
    ReachesThen(s0, s', Probe(t, StoppedStatus(p)));
    s' := Apply(s', Probe(t, StoppedStatus(p)));
  }

  lemma {:induction false} MisnamedRecovers(s0: State, s: State, p: Process, w: Writer, t: nat) returns (s': State)
    requires Reaches(s0, s)
    requires Misnamed(s, p, w) && s.desk.op.None? && p !in s.kube.live && p.containerId != "" && t !in s.threads
    ensures Reaches(s0, s') && Settling(s', t, w)
  {
    s' := MisnamedProves(s0, s, p, w, t);
    ReachesThen(s0, s', CompleteRecovery(t));
    s' := Apply(s', CompleteRecovery(t));
    ReachesThen(s0, s', Fetch(t));
    s' := Apply(s', Fetch(t));
  }

  lemma {:induction false} MisnamedFlushes(s0: State, s: State, w: Writer, t: nat) returns (s': State)
    requires Reaches(s0, s) && Settling(s, t, w)
    ensures Reaches(s0, s') && w in s'.writers && Enabled(s', Acknowledge(t)) && s'.threads[t].kind == TaskStop
  {
    ReachesThen(s0, s, SyncTree(t));
    s' := Apply(s, SyncTree(t));
    ReachesThen(s0, s', RecordFlush(t));
    s' := Apply(s', RecordFlush(t));
  }

  lemma {:induction false} MisnamedWritesAfterAck(s0: State, s: State, w: Writer, t: nat) returns (s': State)
    requires Reaches(s0, s) && w in s.writers && Enabled(s, Acknowledge(t)) && s.threads[t].kind == TaskStop
    ensures Reaches(s0, s') && !Fenced(s'.log)
  {
    ReachesThen(s0, s, Acknowledge(t));
    s' := Apply(s, Acknowledge(t));
    ReachesThen(s0, s', DoWrite(w));
    s' := Apply(s', DoWrite(w));
    var n := |s.log|;
    assert s'.log[n] == Ack && s'.log[n + 1] == Write(w);
  }

  lemma {:induction false} StaleReservationBreaksFence(s: State, p: Process, t: nat)
    requires Inv(s) && Enabled(s, DoReserve(p)) && Some(p) != s.self && t !in s.threads
    ensures exists steps, s' :: Leads(Apply(s, DoReserve(p)), steps, s') && !Fenced(s'.log)
  {
    var s1 := Apply(s, DoReserve(p));
    var w := Writer(s.self.value, s1.desk.op.value.id);
    var s' := MisnamedDrains(s1, p, w);
    s' := MisnamedRecovers(s1, s', p, w, t);
    s' := MisnamedFlushes(s1, s', w, t);
    s' := MisnamedWritesAfterAck(s1, s', w, t);
    assert Reaches(s1, s');
  }

  /** The fence rests on one observation, exactly: a reservation is safe in every continuation if
      and only if the container ControllerProcess reported is the one the controller runs in. */
  lemma {:induction false} ReservationSafeIffSelfObserved(s: State, p: Process, t: nat)
    requires Inv(s) && Enabled(s, DoReserve(p)) && t !in s.threads
    ensures Some(p) == s.self <==>
      forall steps, s' :: Leads(Apply(s, DoReserve(p)), steps, s') ==> Fenced(s'.log)
  {
    if Some(p) == s.self {
      StepKeepsInv(s, DoReserve(p));
      forall steps, s' | Leads(Apply(s, DoReserve(p)), steps, s') ensures Fenced(s'.log) {
        LeadsKeepsInv(Apply(s, DoReserve(p)), steps, s');
      }
    } else {
      StaleReservationBreaksFence(s, p, t);
    }
  }
}
