/** What a resident worker's event log must look like, whatever it is sent. */
module SessionLog {
  import opened Common

  /** The stop a session was told of; revision 0 is none. */
  datatype StopCommand = StopCommand(
    revision: nat, nonce: string, turnSequence: nat, attemptId: string, inputDigest: string,
    reason: string, controllerWritersStopped: bool
  )

  datatype Receipt = Receipt(
    revision: nat, nonce: string, turnSequence: nat, attemptId: string, inputDigest: string,
    writersStopped: bool, flushOk: bool
  )

  /** From when to when the processes were enumerated, and when the last of them had been traced. */
  datatype Census = Census(begun: nat, listed: nat, answered: nat)

  datatype Event =
    // turns
    | Executed(turn: nat, digest: string, at: nat)  // the moment by which the provider had returned
    | ReceiptAccepted(turn: nat)
    | Settled(turn: nat)
    // the task relay's handlers
    | Started(request: nat)
    | Ended(request: nat)
    // shutdown
    | Drained
    | Fenced
    | ProcessesStopped(census: Option<Census>)  // only the end of one turn takes a census
    | PrivateCleared
    | Flushed
    | Signed(receipt: Receipt)

  type Log = seq<Event>

  /** An executed turn was reported, accepted, and then seen settled, all before position upto. */
  ghost predicate Concluded(log: Log, i: nat, upto: nat)
    requires i < upto <= |log| && log[i].Executed?
  {
    exists k, l :: i < k < l < upto && log[k] == ReceiptAccepted(log[i].turn) && log[l].Settled? && log[l].turn >= log[i].turn
  }

  /** Turns run in strictly increasing order, so each at most once, and each starts only after every
      earlier one was concluded. */
  ghost predicate TurnOrder(log: Log) {
    forall i: nat, j: nat {:trigger Ordered(log, i, j)} :: Ordered(log, i, j)
  }

  ghost predicate Ordered(log: Log, i: nat, j: nat) {
    i < j < |log| && log[i].Executed? && log[j].Executed? ==> log[i].turn < log[j].turn && Concluded(log, i, j)
  }

  ghost predicate Receipted(log: Log, i: nat, bound: nat) {
    i < |log| && log[i].Executed? ==> log[i].turn <= bound && exists k :: i < k < |log| && log[k] == ReceiptAccepted(log[i].turn)
  }

  /** Every turn executed so far is at most bound, and its receipt was accepted. */
  ghost predicate AllReceipted(log: Log, bound: nat) {
    forall i: nat {:trigger Receipted(log, i, bound)} :: Receipted(log, i, bound)
  }

  lemma {:induction false} TurnOrderQuiet(log: Log, e: Event, bound: nat)
    requires TurnOrder(log) && !e.Executed?
    ensures TurnOrder(log + [e])
    ensures AllReceipted(log, bound) ==> AllReceipted(log + [e], bound)
  {
    var g := log + [e];
    forall i: nat, j: nat ensures Ordered(g, i, j) {
      OrderedLonger(log, e, i, j);
    }
    if AllReceipted(log, bound) {
      forall i: nat ensures Receipted(g, i, bound) {
        assert Receipted(log, i, bound);
        if i < |log| && log[i].Executed? {
          var k :| i < k < |log| && log[k] == ReceiptAccepted(log[i].turn);
          assert g[k] == log[k];
        }
      }
    }
  }

  lemma {:induction false} OrderedLonger(log: Log, e: Event, i: nat, j: nat)
    requires TurnOrder(log) && (j < |log| || !e.Executed?)
    ensures Ordered(log + [e], i, j)
  {
    var g := log + [e];
    assert Ordered(log, i, j);
    if i < j < |log| && log[i].Executed? && log[j].Executed? {
      var k, l :| i < k < l < j && log[k] == ReceiptAccepted(log[i].turn) && log[l].Settled? && log[l].turn >= log[i].turn;
      assert g[k] == log[k] && g[l] == log[l];
    }
  }

  lemma {:induction false} TurnOrderExecutes(log: Log, turn: nat, digest: string, at: nat, bound: nat)
    requires TurnOrder(log) && AllReceipted(log, bound) && bound < turn
    requires |log| > 0 && log[|log| - 1].Settled? && log[|log| - 1].turn >= bound
    ensures TurnOrder(log + [Executed(turn, digest, at)])
  {
    var g := log + [Executed(turn, digest, at)];
    forall i: nat, j: nat ensures Ordered(g, i, j) {
      if j < |log| {
        OrderedLonger(log, Executed(turn, digest, at), i, j);
      } else if i < |log| && log[i].Executed? {
        assert Receipted(log, i, bound);
        var k :| i < k < |log| && log[k] == ReceiptAccepted(log[i].turn);
        assert g[k] == log[k] && g[|log| - 1] == log[|log| - 1];
        assert k < |log| - 1;
      }
    }
  }

  /** Handlers that have started and not ended. */
  function Live(log: Log): set<nat> {
    if log == [] then {}
    else
      var before, e := Live(log[..|log| - 1]), log[|log| - 1];
      match e
      case Started(r) => before + {r}
      case Ended(r) => before - {r}
      case _ => before
  }

  /** From position d on nothing of the relay runs: all its handlers have ended and none starts. */
  ghost predicate RelaySilent(log: Log, d: nat) {
    d <= |log| && Live(log[..d]) == {} && forall i :: d <= i < |log| ==> !log[i].Started?
  }

  datatype Marks = Marks(drained: nat, fenced: nat, stopped: nat, cleared: nat, flushed: nat)

  /** The order of the two halves: the relay drained, then the fence acknowledged; and local processes
      stopped. */
  ghost predicate WritersOrder(log: Log, m: Marks) {
    && m.drained < m.fenced < |log| && m.stopped < |log|
    && log[m.drained] == Drained && log[m.fenced] == Fenced && log[m.stopped].ProcessesStopped?
    && RelaySilent(log, m.drained)
  }

  /** After both, private state was cleared. */
  ghost predicate ClearOrder(log: Log, m: Marks) {
    WritersOrder(log, m) && m.fenced < m.cleared && m.stopped < m.cleared < |log| && log[m.cleared] == PrivateCleared
  }

  /** What a clean stop claims: then the filesystem was flushed. */
  ghost predicate CleanOrder(log: Log, m: Marks) {
    ClearOrder(log, m) && m.cleared < m.flushed < |log| && log[m.flushed] == Flushed
  }

  /** At the end of one turn it is the turn's own processes that were found stopped, in a census
      begun no earlier than since. */
  ghost predicate TurnFence(log: Log, m: Marks, since: nat) {
    ClearOrder(log, m) && log[m.stopped].census.Some? && since <= log[m.stopped].census.value.begun
  }

  /** The fence of position i's turn stood complete before position k. */
  ghost predicate FencedTurn(log: Log, i: nat, k: nat, m: Marks) {
    && i < k <= |log| && i < m.drained && i < m.stopped && log[i].Executed? && TurnFence(log[..k], m, log[i].at)
  }

  /** A turn's receipt is reported only when, since that turn ran, its relay drained, its checkouts
      were fenced, its processes stopped and its private state was cleared. */
  ghost predicate FencedReceipt(log: Log, k: nat) {
    k < |log| && log[k].ReceiptAccepted? ==> exists i: nat, m: Marks :: FencedTurn(log, i, k, m) && log[i].turn == log[k].turn
  }

  ghost predicate ReceiptsFenced(log: Log) {
    forall k: nat {:trigger FencedReceipt(log, k)} :: FencedReceipt(log, k)
  }

  lemma {:induction false} ReceiptsQuiet(log: Log, e: Event)
    requires ReceiptsFenced(log) && !e.ReceiptAccepted?
    ensures ReceiptsFenced(log + [e])
  {
    forall k: nat ensures FencedReceipt(log + [e], k) {
      FencedLonger(log, e, k);
    }
  }

  lemma {:induction false} FencedLonger(log: Log, e: Event, k: nat)
    requires FencedReceipt(log, k) && (k < |log| || !e.ReceiptAccepted?)
    ensures FencedReceipt(log + [e], k)
  {
    if k >= |log| || !log[k].ReceiptAccepted? {
      return;
    }
    var i: nat, m: Marks :| FencedTurn(log, i, k, m) && log[i].turn == log[k].turn;
    assert (log + [e])[..k] == log[..k];
    assert (log + [e])[i] == log[i];
    assert FencedTurn(log + [e], i, k, m);
  }

  lemma {:induction false} ReceiptFenced(log: Log, turn: nat, i: nat, m: Marks)
    requires ReceiptsFenced(log) && FencedTurn(log, i, |log|, m) && log[i].turn == turn
    ensures ReceiptsFenced(log + [ReceiptAccepted(turn)])
  {
    var g := log + [ReceiptAccepted(turn)];
    forall k: nat ensures FencedReceipt(g, k) {
      if k < |log| {
        FencedLonger(log, ReceiptAccepted(turn), k);
      } else if k == |log| {
        assert g[..k] == log == log[..k] && g[i] == log[i];
        assert FencedTurn(g, i, k, m);
      }
    }
  }
}

/** The resident worker's supervisor, its task relay and its shutdown
    (src/internal/worker/session_linux.go, shutdown_linux.go, relay.go). */
module WorkerSession {
  import opened Common
  import opened SessionLog
  import opened Ancestry
  import Shutdown

  datatype SessionState = Creating | Reserved | Running | Finishing | Idle | Draining | Quarantined | Closed | Unsupported

  datatype Assignment = Assignment(turnSequence: nat, inputDigest: string)

  datatype PollResponse = PollResponse(
    sameSession: bool, turnSequence: nat, settledTurnSequence: nat, state: SessionState,
    assignment: Option<Assignment>, stop: Option<StopCommand>
  )

  /** What ended a run. */
  datatype Ending = StopRequested | Failed(reason: string) | StillServing

  datatype CleanupOutcome = CleanupOutcome(
    writersStopped: bool, flushOk: bool, taskProcessesStopped: bool, localRequestsClosed: bool,
    privateStateCleared: bool, err: bool
  )

  const NO_STOP := StopCommand(0, "", 0, "", "", "", false)

  predicate ValidSessionStop(c: StopCommand) {
    && c.revision != 0 && IsUuid(c.nonce) && (c.attemptId == "" || IsUuid(c.attemptId))
    && (c.inputDigest == "" || IsSha256(c.inputDigest))
  }

  predicate SameBinding(a: StopCommand, b: StopCommand) {
    && a.revision == b.revision && a.nonce == b.nonce && a.turnSequence == b.turnSequence
    && a.attemptId == b.attemptId && a.inputDigest == b.inputDigest
  }

  /** A remembered stop keeps its binding for good, and its fence flag only goes up. */
  predicate StopKept(before: StopCommand, after: StopCommand) {
    before.revision != 0 ==> SameBinding(before, after) && (before.controllerWritersStopped ==> after.controllerWritersStopped)
  }

  /** Only events that end handlers, or begin them while the relay is open, and no turn. */
  ghost predicate Extends(before: Log, after: Log, relayOpen: bool) {
    && before <= after
    && (forall i :: |before| <= i < |after| ==>
          !after[i].Executed? && !after[i].ReceiptAccepted? && (after[i].Started? ==> relayOpen))
  }

  lemma {:induction false} SilentLonger(before: Log, after: Log, d: nat)
    requires RelaySilent(before, d) && Extends(before, after, false)
    ensures RelaySilent(after, d)
  {
    assert after[..d] == before[..d];
  }

  lemma {:induction false} OrderQuietly(before: Log, after: Log, bound: nat)
    requires TurnOrder(before) && Extends(before, after, true)
    ensures TurnOrder(after)
    ensures AllReceipted(before, bound) ==> AllReceipted(after, bound)
    decreases |after|
  {
    if before == after {
    } else {
      var n := |after| - 1;
      assert after == after[..n] + [after[n]];
      OrderQuietly(before, after[..n], bound);
      TurnOrderQuiet(after[..n], after[n], bound);
    }
  }

  lemma {:induction false} SilentDrained(before: Log)
    requires Live(before) == {}
    ensures RelaySilent(before + [Drained], |before|)
  {
    assert (before + [Drained])[..|before|] == before;
  }

  lemma {:induction false} ConcludeTurn(before: Log, turn: nat, digest: string, at: nat, mid: Log, bound: nat)
    requires AllReceipted(before, bound) && bound < turn && Extends(before + [Executed(turn, digest, at)], mid, true)
    ensures AllReceipted(mid + [ReceiptAccepted(turn)], turn)
  {
    var g := mid + [ReceiptAccepted(turn)];
    forall i: nat ensures Receipted(g, i, turn) {
      if i < |before| {
        assert g[i] == (before + [Executed(turn, digest, at)])[i] == before[i];
        assert Receipted(before, i, bound);
        if g[i].Executed? {
          var k :| i < k < |before| && before[k] == ReceiptAccepted(before[i].turn);
          assert g[k] == (before + [Executed(turn, digest, at)])[k] == before[k];
        }
      } else if i < |g| && g[i].Executed? {
        assert i == |before|;
        assert g[i] == (before + [Executed(turn, digest, at)])[i];
        assert g[|mid|] == ReceiptAccepted(turn);
      }
    }
  }

  /** Settled has just been observed for every turn up to bound. */
  ghost predicate JustSettled(log: Log, bound: nat) {
    |log| > 0 && log[|log| - 1].Settled? && log[|log| - 1].turn >= bound
  }

  lemma {:induction false} LiveQuiet(log: Log, e: Event)
    requires !e.Started? && !e.Ended?
    ensures Live(log + [e]) == Live(log)
  {
    assert (log + [e])[..|log|] == log;
  }

  /** How far the two concurrent halves of cleanup have got, and what their events prove: everything
      from position start on, and the census of a turn from moment since on. */
  ghost predicate Progress(since: Option<nat>, start: nat, log: Log, m: Marks, requests: nat, checkoutErr: bool, writers: bool, writerErr: bool) {
    && requests <= 2
    && (requests >= 1 && !checkoutErr ==> start <= m.drained < |log| && log[m.drained] == Drained && RelaySilent(log, m.drained))
    && (requests == 2 && !checkoutErr ==> m.drained < m.fenced < |log| && log[m.fenced] == Fenced)
    && (writers && !writerErr ==> start <= m.stopped < |log| && log[m.stopped].ProcessesStopped? && TakenSince(log[m.stopped].census, since))
  }

  /** At final shutdown, with since absent, no census is needed. */
  predicate TakenSince(census: Option<Census>, since: Option<nat>) {
    since.Some? ==> census.Some? && since.value <= census.value.begun
  }

  lemma {:induction false} ProgressLonger(since: Option<nat>, start: nat, before: Log, after: Log, m: Marks, requests: nat, checkoutErr: bool, writers: bool, writerErr: bool)
    requires Progress(since, start, before, m, requests, checkoutErr, writers, writerErr)
    requires Extends(before, after, requests == 0 || checkoutErr)
    ensures Progress(since, start, after, m, requests, checkoutErr, writers, writerErr)
  {
    if requests >= 1 && !checkoutErr {
      SilentLonger(before, after, m.drained);
    }
  }

  /** Every process of the enumeration was then traced to the resident root. */
  ghost predicate StoppedAt(o: Observer, c: Census) {
    exists m: map<ProcessTree.Pid, seq<Moments>> :: Certified(o.h, o.root, o.rootStart, c.begun, c.listed, c.answered, m)
  }

  ghost predicate ProvenStop(log: Log, i: nat, o: Observer) {
    i < |log| && log[i].ProcessesStopped? && log[i].census.Some? ==> StoppedAt(o, log[i].census.value)
  }

  ghost predicate ProvenStops(log: Log, o: Observer) {
    forall i: nat {:trigger ProvenStop(log, i, o)} :: ProvenStop(log, i, o)
  }

  lemma {:induction false} StopsThen(log: Log, e: Event, o: Observer)
    requires ProvenStops(log, o) && (e.ProcessesStopped? && e.census.Some? ==> StoppedAt(o, e.census.value))
    ensures ProvenStops(log + [e], o)
  {
    forall i: nat ensures ProvenStop(log + [e], i, o) {
      assert ProvenStop(log, i, o);
    }
  }

  lemma {:induction false} ExtendsTwice(a: Log, b: Log, c: Log)
    requires Extends(a, b, true) && Extends(b, c, true)
    ensures Extends(a, c, true)
  {
  }

  class SessionSupervisor {
    /** How the process tree is seen while the resident desktop lives, and the processes that the
        final stop takes down. */
    const observer: Observer
    const namespace: Shutdown.Namespace
    var admitted: bool
    var state: SessionState
    var sequence: nat
    var inputDigest: string
    var completed: nat
    var settled: nat
    var receiptAccepted: bool
    var stop: StopCommand
    /** The current turn's task relay: whether it accepts requests, and its running handlers. */
    var relayOpen: bool
    var active: set<nat>
    ghost var log: Log

    ghost predicate Valid()
      reads this, observer, namespace
    {
      && observer.Valid() && namespace.Valid() && ProvenStops(log, observer)
      && TurnOrder(log) && ReceiptsFenced(log) && active == Live(log) && (stop.revision != 0 ==> ValidSessionStop(stop))
    }

    /** Between turns: every turn that ran was completed and its receipt accepted. */
    ghost predicate Ready()
      reads this, observer, namespace
    {
      && Valid() && AllReceipted(log, completed) && completed == sequence
      && (completed > 0 ==> receiptAccepted) && active == {} && !relayOpen
    }

    constructor (observer: Observer, namespace: Shutdown.Namespace)
      requires observer.Valid() && namespace.Valid()
      ensures Ready() && this.observer == observer && this.namespace == namespace && sequence == 0 && settled == 0 && stop == NO_STOP && log == []
    {
      this.observer, this.namespace := observer, namespace;
      admitted, state, sequence, inputDigest, completed, settled, receiptAccepted := false, Creating, 0, "", 0, 0, false;
      stop, relayOpen, active, log := NO_STOP, false, {}, [];
    }

    ghost method Emit(e: Event)
      requires Valid() && !e.Executed? && !e.ReceiptAccepted? && !e.Started? && !e.Ended?
      requires e.ProcessesStopped? && e.census.Some? ==> StoppedAt(observer, e.census.value)
      modifies `log
      ensures Valid() && log == old(log) + [e]
    {
      log := log + [e];
      TurnOrderQuiet(old(log), e, 0);
      ReceiptsQuiet(old(log), e);
      StopsThen(old(log), e, observer);
      assert log[..|log| - 1] == old(log);
    }

    /** ServeHTTP's entry, under the relay's mutex. */
    method StartRequest(r: nat) returns (admitted: bool)
      requires Valid()
      modifies `active, `log
      ensures Valid() && Extends(old(log), log, relayOpen)
      ensures admitted <==> relayOpen && r !in old(active)
      ensures active == if admitted then old(active) + {r} else old(active)
    {
      admitted := relayOpen && r !in active;
      if admitted {
        active := active + {r};
        log := log + [Started(r)];
        TurnOrderQuiet(old(log), Started(r), 0);
        ReceiptsQuiet(old(log), Started(r));
        StopsThen(old(log), Started(r), observer);
        assert log[..|log| - 1] == old(log);
      }
    }

    method EndRequest(r: nat)
      requires Valid() && r in active
      modifies `active, `log
      ensures Valid() && Extends(old(log), log, false) && active == old(active) - {r}
    {
      active := active - {r};
      log := log + [Ended(r)];
      TurnOrderQuiet(old(log), Ended(r), 0);
      ReceiptsQuiet(old(log), Ended(r));
      StopsThen(old(log), Ended(r), observer);
      assert log[..|log| - 1] == old(log);
    }

    /** Requests of the task come and go. */
    method Traffic()
      requires Valid()
      modifies `active, `log
      ensures Valid() && Extends(old(log), log, relayOpen)
    {
      var n: nat := *;
      while n > 0
        invariant Valid() && Extends(old(log), log, relayOpen)
      {
        var r: nat := *;
        if r in active {
          EndRequest(r);
        } else {
          var _ := StartRequest(r);
        }
        n := n - 1;
      }
    }

    /** stopRequests: nobody is admitted any more, and the handlers are waited for until a deadline. */
    method StopRequests() returns (ok: bool)
      requires Valid()
      modifies `relayOpen, `active, `log
      ensures Valid() && Extends(old(log), log, false) && !relayOpen
      ensures ok ==> |old(log)| < |log| && log[|log| - 1] == Drained && RelaySilent(log, |log| - 1) && active == {}
    {
      relayOpen := false;
      while active != {}
        invariant !relayOpen
        invariant Valid() && Extends(old(log), log, false)
      {
        var expired: bool := *;
        if expired {
          return false;
        }
        var r :| r in active;
        EndRequest(r);
      }
      SilentDrained(log);
      Emit(Drained);
      ok := true;
    }

    /** rememberStop, under the stop mutex. */
    method RememberStop(c: StopCommand) returns (ok: bool)
      requires Valid()
      modifies `stop
      ensures Valid()
      ensures ok <==> ValidSessionStop(c) && (old(stop).revision != 0 ==> SameBinding(old(stop), c))
      ensures stop == if ok then c.(controllerWritersStopped := c.controllerWritersStopped || old(stop).controllerWritersStopped) else old(stop)
      ensures StopKept(old(stop), stop)
    {
      ok := ValidSessionStop(c) && (stop.revision != 0 ==> SameBinding(stop, c));
      if ok {
        stop := c.(controllerWritersStopped := c.controllerWritersStopped || stop.controllerWritersStopped);
      }
    }

    /** The stop covers every turn this supervisor accepted, and its controller writers have stopped. */
    predicate FenceCovers()
      reads this
    {
      ValidSessionStop(stop) && stop.controllerWritersStopped && stop.turnSequence >= sequence
    }

    /** The gateway's answer to a request for the stop, or to a read of it; none is an error. */
    method AskStop() returns (ok: bool, command: StopCommand)
      requires Valid()
      modifies `stop
      ensures Valid() && StopKept(old(stop), stop)
      ensures ok ==> ValidSessionStop(stop) && SameBinding(stop, command) && (command.controllerWritersStopped ==> stop.controllerWritersStopped)
    {
      ok, command := *, *;
      if ok {
        ok := RememberStop(command);
      }
    }

    /** The session fence of finalStop: ask for a stop if none is known, then read it until the
        controller's writers have stopped. */
    method SessionFence() returns (ok: bool)
      requires Valid()
      modifies `admitted, `stop, `log
      ensures Valid() && Extends(old(log), log, false) && StopKept(old(stop), stop)
      ensures ok ==> admitted && FenceCovers() && |old(log)| < |log| && log[|log| - 1] == Fenced
    {
      if !admitted {
        var enrolled: bool := *;
        if !enrolled {
          return false;
        }
        admitted := true;
      }
      var command := stop;
      ok := true;
      if command.revision == 0 {
        ok, command := AskStop();
      }
      if ok {
        ok := AwaitFence(command);
      }
    }

    method AwaitFence(first: StopCommand) returns (ok: bool)
      requires Valid() && ValidSessionStop(stop) && SameBinding(stop, first)
      requires first.controllerWritersStopped ==> stop.controllerWritersStopped
      modifies `stop, `log
      ensures Valid() && Extends(old(log), log, false) && StopKept(old(stop), stop)
      ensures ok ==> FenceCovers() && |old(log)| < |log| && log[|log| - 1] == Fenced
    {
      var command := first;
      var polls: nat := *;
      while polls > 0
        invariant log == old(log)
        invariant StopKept(old(stop), stop) && ValidSessionStop(stop) && SameBinding(stop, command)
        invariant command.controllerWritersStopped ==> stop.controllerWritersStopped
      {
        if command.turnSequence < sequence {
          return false;
        }
        if command.controllerWritersStopped {
          MarkFenced();
          return true;
        }
        ok, command := AskStop();
        if !ok {
          return;
        }
        polls := polls - 1;
      }
      ok := false;
    }

    ghost method MarkFenced()
      requires Valid()
      modifies `log
      ensures Valid() && Extends(old(log), log, false) && |old(log)| < |log| && log[|log| - 1] == Fenced
    {
      Emit(Fenced);
    }

    /** The attempt's checkout-stop, at the end of one turn. */
    method CheckoutStop() returns (ok: bool)
      requires Valid()
      modifies `log
      ensures Valid() && Extends(old(log), log, false)
      ensures ok ==> |old(log)| < |log| && log[|log| - 1] == Fenced
    {
      ok := *;
      if ok {
        MarkFenced();
      }
    }

    /** The requests half: drain the relay, then fence the controller. */
    method StopRequestsStep(final: bool, requests: nat) returns (ok: bool, next: nat)
      requires Valid() && requests < 2
      modifies `admitted, `stop, `relayOpen, `active, `log
      ensures Valid() && Extends(old(log), log, false) && StopKept(old(stop), stop)
      ensures requests == 1 ==> active == old(active) && relayOpen == old(relayOpen)
      ensures !final ==> admitted == old(admitted) && stop == old(stop)
      ensures requests == 0 ==> !relayOpen
      ensures next == if ok then requests + 1 else 2
      ensures ok && requests == 0 ==> |old(log)| < |log| && log[|log| - 1] == Drained && RelaySilent(log, |log| - 1) && active == {}
      ensures ok && requests == 1 ==> |old(log)| < |log| && log[|log| - 1] == Fenced && (final ==> admitted && FenceCovers())
    {
      if requests == 0 {
        ok := StopRequests();
      } else if final {
        ok := SessionFence();
      } else {
        ok := CheckoutStop();
      }
      next := if ok then requests + 1 else 2;
    }

    /** One move of the requests half, and what it proves. */
    method AdvanceRequests(final: bool, requests: nat, ghost since: Option<nat>, ghost start: nat, ghost m: Marks, ghost writers: bool, ghost writerErr: bool)
      returns (ok: bool, next: nat, ghost n: Marks)
      requires Valid() && requests < 2 && start <= |log|
      requires Progress(since, start, log, m, requests, false, writers, writerErr) && (requests == 1 ==> active == {} && !relayOpen)
      modifies `admitted, `stop, `relayOpen, `active, `log
      ensures Valid() && Extends(old(log), log, true) && StopKept(old(stop), stop) && !relayOpen
      ensures !final ==> admitted == old(admitted) && stop == old(stop)
      ensures next == if ok then requests + 1 else 2
      ensures Progress(since, start, log, n, next, !ok, writers, writerErr)
      ensures ok ==> active == {} && (final && next == 2 ==> admitted && FenceCovers())
    {
      ghost var before := log;
      ok, next := StopRequestsStep(final, requests);
      ProgressLonger(since, start, before, log, m, requests, !ok, writers, writerErr);
      n := if !ok then m else if requests == 0 then m.(drained := |log| - 1) else m.(fenced := |log| - 1);
    }

    /** The other half. At the end of a turn that is stopTaskProcesses, whose certificate the event
        refers to; at final shutdown, stopping every process there is. */
    method StopWriters(final: bool, ghost since: Option<nat>, ghost start: nat, ghost m: Marks, ghost requests: nat, ghost checkoutErr: bool)
      returns (ok: bool, ghost n: Marks)
      requires Valid() && Progress(since, start, log, m, requests, checkoutErr, false, false) && start <= |log|
      requires if final then since.None? else since.Some? && since.value <= observer.t
      modifies `log, observer, namespace
      ensures Valid() && Extends(old(log), log, false) && observer.t >= old(observer.t)
      ensures Progress(since, start, log, n, requests, checkoutErr, true, !ok)
      ensures final && ok ==> namespace.tasks == map[]
    {
      ghost var census: Option<Census> := None;
      n := m;
      if final {
        ok := namespace.StopWriters();
      } else {
        ok, census := StopTurnProcesses();
      }
      if ok {
        MarkStopped(census);
        ProgressLonger(since, start, old(log), log, m, requests, checkoutErr, false, false);
        n := m.(stopped := |log| - 1);
      }
    }

    method StopTurnProcesses() returns (ok: bool, ghost census: Option<Census>)
      requires Valid()
      modifies observer
      ensures Valid() && observer.t >= old(observer.t)
      ensures ok ==> census.Some? && old(observer.t) <= census.value.begun && StoppedAt(observer, census.value)
    {
      ghost var a, e, traces;
      ok, a, e, traces := observer.StopTaskProcesses();
      census := Some(Census(a, e, observer.t));
    }

    ghost method MarkStopped(census: Option<Census>)
      requires Valid() && (census.Some? ==> StoppedAt(observer, census.value))
      modifies `log
      ensures Valid() && Extends(old(log), log, false) && log == old(log) + [ProcessesStopped(census)]
    {
      Emit(ProcessesStopped(census));
    }

    /** The two halves of cleanup, in any interleaving: requests are drained and fenced by one
        goroutine while the other stops the task's processes, and both are awaited. */
    method StopBoth(final: bool) returns (checkoutErr: bool, writerErr: bool, ghost m: Marks)
      requires Valid()
      modifies `admitted, `stop, `relayOpen, `active, `log, observer, namespace
      ensures Valid() && Extends(old(log), log, true) && StopKept(old(stop), stop)
      ensures !final ==> admitted == old(admitted) && stop == old(stop)
      ensures Progress(if final then None else Some(old(observer.t)), |old(log)|, log, m, 2, checkoutErr, true, writerErr)
      ensures !checkoutErr ==> active == {} && !relayOpen && (final ==> admitted && FenceCovers())
      ensures final && !writerErr ==> namespace.tasks == map[]
    {
      ghost var start, since := |log|, if final then None else Some(observer.t);
      var requests: nat := 0;
      var writers := false;
      checkoutErr, writerErr, m := false, false, Marks(0, 0, 0, 0, 0);
      while requests < 2 || !writers
        invariant Valid() && Extends(old(log), log, true) && StopKept(old(stop), stop) && observer.t >= old(observer.t)
        invariant !final ==> admitted == old(admitted) && stop == old(stop)
        invariant Progress(since, start, log, m, requests, checkoutErr, writers, writerErr)
        invariant checkoutErr ==> requests == 2
        invariant !writers ==> !writerErr
        invariant final && writers && !writerErr ==> namespace.tasks == map[]
        invariant requests >= 1 ==> !relayOpen
        invariant requests >= 1 && !checkoutErr ==> active == {}
        invariant final && requests == 2 && !checkoutErr ==> admitted && FenceCovers()
        decreases 2 - requests, !writers
      {
        var first: bool := *;
        if requests < 2 && (first || writers) {
          var ok;
          ok, requests, m := AdvanceRequests(final, requests, since, start, m, writers, writerErr);
          checkoutErr := !ok;
        } else {
          var ok;
          ok, m := StopWriters(final, since, start, m, requests, checkoutErr);
          writers, writerErr := true, !ok;
        }
        if relayOpen {
          TrafficMeanwhile(since, start, m, requests, checkoutErr, writers, writerErr);
        }
      }
    }

    /** While the relay is still open its requests go on. */
    method TrafficMeanwhile(ghost since: Option<nat>, ghost start: nat, ghost m: Marks, ghost requests: nat,
                            ghost checkoutErr: bool, ghost writers: bool, ghost writerErr: bool)
      requires Valid() && relayOpen && requests == 0
      requires Progress(since, start, log, m, requests, checkoutErr, writers, writerErr)
      modifies `active, `log
      ensures Valid() && Extends(old(log), log, true)
      ensures Progress(since, start, log, m, requests, checkoutErr, writers, writerErr)
    {
      Traffic();
      ProgressLonger(since, start, old(log), log, m, requests, checkoutErr, writers, writerErr);
    }

    /** Both halves having succeeded: private state is cleared, then at final shutdown the filesystem
        is flushed. */
    method ClearState(final: bool, ghost since: Option<nat>, ghost start: nat, ghost m: Marks) returns (cleared: bool, flushOk: bool, ghost n: Marks)
      requires Valid() && Progress(since, start, log, m, 2, false, true, false)
      modifies `log
      ensures Valid() && Extends(old(log), log, false)
      ensures WritersOrder(log, n) && start <= n.drained && start <= n.stopped
      ensures cleared ==> ClearOrder(log, n) && (since.Some? ==> TurnFence(log, n, since.value))
      ensures flushOk ==> final && cleared && CleanOrder(log, n)
    {
      cleared, flushOk, n := *, false, m;
      if cleared {
        Emit(PrivateCleared);
        n := m.(cleared := |log| - 1);
        if final {
          flushOk := *;
          if flushOk {
            Emit(Flushed);
            n := n.(flushed := |log| - 1);
          }
        }
      }
      SilentLonger(old(log), log, m.drained);
    }

    /** cleanup. Private state is cleared only after both halves succeeded, and the task filesystem
        is flushed only at final shutdown and only after that. */
    method Cleanup(final: bool) returns (o: CleanupOutcome, ghost m: Marks)
      requires Valid()
      modifies `admitted, `stop, `relayOpen, `active, `log, observer, namespace
      ensures Valid() && Extends(old(log), log, true) && StopKept(old(stop), stop)
      ensures !final ==> admitted == old(admitted) && stop == old(stop) && !o.writersStopped && !o.flushOk
      ensures o.writersStopped ==> admitted && FenceCovers() && namespace.tasks == map[]
      ensures o.writersStopped || o.privateStateCleared ==> WritersOrder(log, m) && |old(log)| <= m.drained && |old(log)| <= m.stopped && active == {} && !relayOpen
      ensures o.privateStateCleared ==> ClearOrder(log, m) && (final || TurnFence(log, m, old(observer.t)))
      ensures o.flushOk ==> o.writersStopped && o.privateStateCleared && CleanOrder(log, m)
      ensures !o.err ==> o.taskProcessesStopped && o.localRequestsClosed && o.privateStateCleared
    {
      var localErr: bool := *;
      var checkoutErr, writerErr;
      checkoutErr, writerErr, m := StopBoth(final);
      var writersStopped := !checkoutErr && !writerErr;
      var requestsClosed := !checkoutErr && !localErr;
      var privateCleared, flushOk, flushErr := false, false, false;
      if writersStopped {
        privateCleared, flushOk, m := ClearState(final, if final then None else Some(old(observer.t)), |old(log)|, m);
        localErr := localErr || !privateCleared;
        flushErr := final && privateCleared && !flushOk;
      }
      o := CleanupOutcome(final && writersStopped, flushOk, !writerErr, requestsClosed, privateCleared,
        localErr || checkoutErr || writerErr || flushErr);
    }

    /** The provider runs, for any length of time: the one place where a turn is executed. */
    method RunProvider(a: Assignment, ghost bound: nat) returns (result: bool, ok: bool, ghost at: nat)
      requires Valid() && AllReceipted(log, bound) && bound < a.turnSequence && JustSettled(log, bound)
      modifies `relayOpen, `active, `log, observer
      ensures Valid() && Extends(old(log) + [Executed(a.turnSequence, a.inputDigest, at)], log, true)
      ensures old(observer.t) <= at <= observer.t
    {
      observer.Wait();
      at := observer.t;
      ghost var turn := Executed(a.turnSequence, a.inputDigest, at);
      log := log + [turn];
      TurnOrderExecutes(old(log), a.turnSequence, a.inputDigest, at, bound);
      ReceiptsQuiet(old(log), turn);
      StopsThen(old(log), turn, observer);
      LiveQuiet(old(log), turn);
      relayOpen := true;
      Traffic();
      result, ok := *, *;
    }

    /** The accepted turn execution receipt. */
    ghost method EmitReceipt(before: Log, a: Assignment, at: nat, bound: nat, m: Marks)
      requires Valid() && AllReceipted(before, bound) && bound < a.turnSequence
      requires Extends(before + [Executed(a.turnSequence, a.inputDigest, at)], log, true)
      requires TurnFence(log, m, at) && |before| < m.drained && |before| < m.stopped
      modifies `log
      ensures Valid() && log == old(log) + [ReceiptAccepted(a.turnSequence)] && AllReceipted(log, a.turnSequence)
    {
      ConcludeTurn(before, a.turnSequence, a.inputDigest, at, log, bound);
      TurnOrderQuiet(log, ReceiptAccepted(a.turnSequence), 0);
      assert log[|before|] == (before + [Executed(a.turnSequence, a.inputDigest, at)])[|before|];
      assert log[..|log|] == log;
      ReceiptFenced(log, a.turnSequence, |before|, m);
      LiveQuiet(log, ReceiptAccepted(a.turnSequence));
      StopsThen(log, ReceiptAccepted(a.turnSequence), observer);
      log := log + [ReceiptAccepted(a.turnSequence)];
    }

    /** The report after settling, sent only for an undisturbed turn whose cleanup left nothing behind. */
    method ReportTurn(a: Assignment, undisturbed: bool, ghost before: Log, ghost at: nat, ghost bound: nat, ghost m: Marks) returns (reportErr: bool)
      requires Valid() && AllReceipted(before, bound) && bound < a.turnSequence
      requires Extends(before + [Executed(a.turnSequence, a.inputDigest, at)], log, true)
      requires undisturbed ==> TurnFence(log, m, at) && |before| < m.drained && |before| < m.stopped
      modifies `receiptAccepted, `log
      ensures Valid() && old(log) <= log
      ensures undisturbed && !reportErr ==> receiptAccepted && AllReceipted(log, a.turnSequence)
    {
      reportErr := *;
      if undisturbed && !reportErr {
        var healthy: bool := *;
        reportErr := !healthy;
      }
      if undisturbed && !reportErr {
        receiptAccepted := *;
        reportErr := !receiptAccepted;
        if receiptAccepted {
          EmitReceipt(before, a, at, bound, m);
        }
      }
    }

    method SettleTurn(a: Assignment, result: bool, ran: bool, interrupted: bool, ghost before: Log, ghost at: nat, ghost bound: nat) returns (ok: bool)
      requires Valid() && AllReceipted(before, bound) && bound < a.turnSequence && at <= observer.t
      requires Extends(before + [Executed(a.turnSequence, a.inputDigest, at)], log, true)
      modifies `admitted, `stop, `receiptAccepted, `relayOpen, `active, `log, observer, namespace
      ensures Valid() && old(log) <= log && admitted == old(admitted) && stop == old(stop)
      ensures ok ==> receiptAccepted && AllReceipted(log, a.turnSequence) && active == {} && !relayOpen
    {
      ghost var start := log;
      var cleanup;
      ghost var m;
      cleanup, m := Cleanup(false);
      ExtendsTwice(before + [Executed(a.turnSequence, a.inputDigest, at)], start, log);
      var undisturbed := result && !interrupted && ran && !cleanup.err
        && cleanup.taskProcessesStopped && cleanup.localRequestsClosed && cleanup.privateStateCleared;
      var reportErr := ReportTurn(a, undisturbed, before, at, bound, m);
      ok := result && !interrupted && ran && !cleanup.err && !reportErr;
    }

    /** execute: the turn is consumed before it is accepted, and whatever then fails ends this
        incarnation instead of running the provider again. */
    method Execute(a: Assignment) returns (ok: bool)
      requires Ready() && JustSettled(log, completed)
      modifies `admitted, `stop, `sequence, `inputDigest, `completed, `receiptAccepted, `state, `relayOpen, `active, `log, observer, namespace
      ensures Valid() && old(log) <= log && sequence >= old(sequence) && admitted == old(admitted) && stop == old(stop)
      ensures ok ==> Ready() && completed == a.turnSequence > old(completed)
      ensures sequence == old(sequence) ==> !ok && log == old(log) && inputDigest == old(inputDigest)
      ensures sequence != old(sequence) ==> sequence == a.turnSequence && inputDigest == a.inputDigest
    {
      var valid: bool, timely: bool := *, *;
      if !valid || a.turnSequence <= sequence || !timely {
        return false;
      }
      sequence, inputDigest, state := a.turnSequence, a.inputDigest, Reserved;
      receiptAccepted := false;
      var accepted: bool := *;
      if !accepted {
        return false;
      }
      ok := RunTurn(a, completed);
      if ok {
        completed := a.turnSequence;
      }
    }

    /** The accepted turn: admission, the provider, and settling. */
    method RunTurn(a: Assignment, ghost bound: nat) returns (ok: bool)
      requires Valid() && AllReceipted(log, bound) && bound < a.turnSequence && JustSettled(log, bound)
      modifies `admitted, `stop, `receiptAccepted, `state, `relayOpen, `active, `log, observer, namespace
      ensures Valid() && old(log) <= log && admitted == old(admitted) && stop == old(stop)
      ensures ok ==> receiptAccepted && AllReceipted(log, a.turnSequence) && active == {} && !relayOpen
    {
      ghost var before := log;
      var admittedTurn: bool := *;
      if !admittedTurn {
        var _, _ := Cleanup(false);
        state := Finishing;
        return false;
      }
      state := Running;
      var result, ran;
      ghost var at;
      result, ran, at := RunProvider(a, bound);
      var interrupted: bool := *;
      state := Finishing;
      ok := SettleTurn(a, result, ran, interrupted, before, at, bound);
    }

    /** One poll's response, once it has arrived. */
    method HandleResponse(r: PollResponse) returns (e: Ending)
      requires Ready()
      modifies `admitted, `stop, `sequence, `inputDigest, `completed, `receiptAccepted, `settled, `state, `relayOpen, `active, `log, observer, namespace
      ensures Valid() && old(log) <= log && sequence >= old(sequence) && StopKept(old(stop), stop)
      ensures e == StillServing ==> Ready() && settled >= old(settled)
    {
      if !r.sameSession || r.turnSequence < sequence || r.settledTurnSequence > r.turnSequence || r.settledTurnSequence < settled {
        return Failed("session poll changed the accepted turn binding");
      }
      if r.stop.Some? {
        var kept := RememberStop(r.stop.value);
        return if kept then StopRequested else Failed("session stop changed its writer binding");
      }
      settled := r.settledTurnSequence;
      TurnOrderQuiet(log, Settled(settled), completed);
      Emit(Settled(settled));
      match r.state
      case Draining | Quarantined | Closed => return StopRequested;
      case Unsupported => return Failed("unsupported worker session state");
      case _ => e := HandleState(r);
    }

    /** The response assigns a new turn, and every earlier one has been concluded. */
    predicate MayExecute(r: PollResponse)
      reads this
    {
      && r.assignment.Some? && r.assignment.value.turnSequence > sequence
      && (completed == 0 || (receiptAccepted && settled >= completed))
    }

    /** The part of a response that concerns turns, right after its settlement was taken over. */
    method HandleState(r: PollResponse) returns (e: Ending)
      requires Ready() && JustSettled(log, settled)
      modifies `admitted, `stop, `sequence, `inputDigest, `completed, `receiptAccepted, `state, `relayOpen, `active, `log, observer, namespace
      ensures Valid() && old(log) <= log && sequence >= old(sequence) && admitted == old(admitted) && stop == old(stop)
      ensures e == StillServing ==> Ready()
      ensures !old(MayExecute(r)) ==> log == old(log) && sequence == old(sequence) && inputDigest == old(inputDigest)
    {
      if r.assignment.Some? {
        e := HandleAssignment(r);
        return;
      } else if r.state == Idle && (completed == 0 || (receiptAccepted && settled >= completed)) {
        state := Idle;
        var marked: bool := *;
        if !marked {
          return Failed("ready marker");
        }
      } else if sequence == 0 && (r.state == Running || r.state == Finishing) {
        return Failed("session execution exists without local acceptance");
      }
      e := StillServing;
    }

    method HandleAssignment(r: PollResponse) returns (e: Ending)
      requires Ready() && JustSettled(log, settled) && r.assignment.Some?
      modifies `admitted, `stop, `sequence, `inputDigest, `completed, `receiptAccepted, `state, `relayOpen, `active, `log, observer, namespace
      ensures Valid() && old(log) <= log && sequence >= old(sequence) && admitted == old(admitted) && stop == old(stop)
      ensures e == StillServing ==> Ready()
      ensures !old(MayExecute(r)) ==> log == old(log) && sequence == old(sequence) && inputDigest == old(inputDigest)
    {
      var a := r.assignment.value;
      if r.state != Reserved || a.turnSequence != r.turnSequence {
        return Failed("assignment is not the reserved session turn");
      }
      if a.turnSequence <= sequence {
        if a.turnSequence != sequence || a.inputDigest != inputDigest {
          return Failed("session replay changed an accepted assignment");
        }
      } else if completed == 0 || (receiptAccepted && settled >= completed) {
        var ok := Execute(a);
        return if ok then StillServing else Failed("worker turn failed");
      }
      e := StillServing;
    }

    /** run, over any number of polls with any outcomes. The watchdog may remember a stop, or cancel,
        between any two of them. */
    method Run() returns (e: Ending)
      requires Ready()
      modifies `admitted, `stop, `sequence, `inputDigest, `completed, `receiptAccepted, `settled, `state, `relayOpen, `active, `log, observer, namespace
      ensures Valid() && old(log) <= log && sequence >= old(sequence) && StopKept(old(stop), stop)
    {
      var polls: nat := *;
      while polls > 0
        invariant Ready() && old(log) <= log && sequence >= old(sequence) && StopKept(old(stop), stop)
      {
        polls := polls - 1;
        var watched: bool := *;
        if watched {
          var command: StopCommand := *;
          var _ := RememberStop(command);
        }
        var cancelled: bool := *;
        if cancelled {
          return StopRequested;
        }
        var overdue: bool := *;
        if completed > settled && overdue {
          return Failed("worker turn settlement remained unproven");
        }
        var answered: bool, fatal: bool := *, *;
        if answered {
          var response: PollResponse := *;
          e := HandleResponse(response);
          if e != StillServing {
            return;
          }
        } else if fatal {
          return Failed("gateway");
        }
      }
      e := StillServing;
    }

    /** finalStop: the signed receipt says what cleanup established, under the remembered binding; if
        writers stopped, then no process besides PID 1 exists when it is signed, or later. */
    method FinalStop() returns (receipt: Option<Receipt>, ghost m: Marks)
      requires Valid()
      modifies `admitted, `stop, `relayOpen, `active, `log, observer, namespace
      ensures Valid() && old(log) <= log && StopKept(old(stop), stop)
      ensures receipt.Some? ==> |old(log)| < |log| && log[|log| - 1] == Signed(receipt.value) && BoundTo(receipt.value, stop)
      ensures receipt.Some? && receipt.value.writersStopped ==>
        FenceCovers() && receipt.value.turnSequence >= sequence && namespace.tasks == map[]
      ensures forall i :: |old(log)| <= i < |log| ==> !log[i].Executed?
      ensures receipt.Some? && receipt.value.writersStopped ==> WritersOrder(log, m) && |old(log)| <= m.drained && |old(log)| <= m.stopped
      ensures receipt.Some? && receipt.value.flushOk ==> receipt.value.writersStopped && CleanOrder(log, m) && m.flushed < |log| - 1
    {
      var cleanup;
      cleanup, m := Cleanup(true);
      namespace.Meanwhile();
      if !admitted || !ValidSessionStop(stop) {
        return None, m;
      }
      var r := Receipt(stop.revision, stop.nonce, stop.turnSequence, stop.attemptId, stop.inputDigest, cleanup.writersStopped, cleanup.flushOk);
      ghost var before := log;
      Emit(Signed(r));
      if cleanup.writersStopped {
        SilentLonger(before, log, m.drained);
      }
      receipt := Some(r);
    }

    /** An accepted receipt of a turn proves that the processes of one moment, at which the turn had
        already run, were all traced to the resident root. Without PID reuse between that moment and the
        last answer nothing outside the resident tree was left at it; Ancestry.CertifiedExact is the
        exact condition. */
    lemma {:induction false} ReceiptProvesStop(k: nat)
      requires Valid() && k < |log| && log[k].ReceiptAccepted?
      ensures exists i: nat, p: nat :: StoppedTurn(i, p, k) && log[i].turn == log[k].turn
    {
      assert FencedReceipt(log, k);
      var i: nat, m: Marks :| FencedTurn(log, i, k, m) && log[i].turn == log[k].turn;
      assert ProvenStop(log, m.stopped, observer);
      assert log[..k][m.stopped] == log[m.stopped];
      var c := log[m.stopped].census.value;
      var traces :| Certified(observer.h, observer.root, observer.rootStart, c.begun, c.listed, c.answered, traces);
      if NoReuse(observer.h, c.listed, c.answered) && Calm(observer.h, observer.root, c.begun, c.listed) {
        CertifiedWithoutReuse(observer.h, observer.root, c.begun, c.listed, c.answered, traces);
      }
      assert StoppedTurn(i, m.stopped, k);
    }

    /** Between its execution at position i and position k the turn's processes were found stopped, at
        position p, in a census begun when the turn had run. */
    ghost predicate StoppedTurn(i: nat, p: nat, k: nat)
      reads this, observer
    {
      && i < p < k <= |log| && log[i].Executed? && log[p].ProcessesStopped? && log[p].census.Some?
      && var c := log[p].census.value;
      && log[i].at <= c.begun <= c.listed <= c.answered < |observer.h| && StoppedAt(observer, c)
      && (NoReuse(observer.h, c.listed, c.answered) && Calm(observer.h, observer.root, c.begun, c.listed) ==>
            AllResident(observer.h[c.listed], observer.root))
    }

    /** serveSession. */
    method ServeSession() returns (receipt: Option<Receipt>, ghost m: Marks)
      requires Ready() && stop == NO_STOP && log == []
      modifies this, observer, namespace
      ensures Valid()
      ensures receipt.Some? && receipt.value.writersStopped ==>
        FenceCovers() && receipt.value.turnSequence >= sequence && BoundTo(receipt.value, stop) && namespace.tasks == map[]
      ensures receipt.Some? ==> |log| > 0 && log[|log| - 1] == Signed(receipt.value)
      ensures receipt.Some? && receipt.value.writersStopped ==>
        WritersOrder(log, m) && forall i :: 0 <= i < |log| && log[i].Executed? ==> i < m.drained && i < m.stopped
      ensures receipt.Some? && receipt.value.flushOk ==> receipt.value.writersStopped && CleanOrder(log, m) && m.flushed < |log| - 1
    {
      admitted := *;
      if admitted {
        var _ := Run();
      }
      receipt, m := FinalStop();
    }
  }

  predicate BoundTo(r: Receipt, c: StopCommand) {
    && r.revision == c.revision && r.nonce == c.nonce && r.turnSequence == c.turnSequence
    && r.attemptId == c.attemptId && r.inputDigest == c.inputDigest
  }
}
