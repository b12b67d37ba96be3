/** Stopping every process of a worker's PID namespace at final shutdown, the resident desktop
    included (stopWriters of src/internal/worker/supervisor_linux.go). PID 1 is the worker itself. */
module Shutdown {
  import opened Common
  import ProcessTree

  type Pid = ProcessTree.Pid

  const PID_LIMIT: nat := 0x40_0000

  /** A dead task still has its entry in /proc until it is reaped. */
  datatype Task = Task(dead: bool, stopped: bool)
  type Tasks = map<Pid, Task>

  datatype Step =
    | Fork(parent: Pid, child: Pid)
    | Exit(pid: Pid)
    | Reap(pid: Pid)
    | Wake(waker: Pid, pid: Pid)

  predicate Active(w: Tasks, p: Pid) {
    p in w && !w[p].dead && !w[p].stopped
  }

  predicate Enabled(w: Tasks, s: Step) {
    match s
    case Fork(parent, child) => Active(w, parent) && child !in w && 1 < child < PID_LIMIT
    case Exit(p) => p in w
    case Reap(p) => p in w && w[p].dead
    case Wake(waker, p) => Active(w, waker) && p in w
  }

  function Apply(w: Tasks, s: Step): Tasks
    requires Enabled(w, s)
  {
    match s
    case Fork(_, child) => w[child := Task(false, false)]
    case Exit(p) => w[p := w[p].(dead := true)]
    case Reap(p) => w - {p}
    case Wake(_, p) => w[p := w[p].(stopped := false)]
  }

  ghost predicate Next(v: Tasks, w: Tasks) {
    exists s :: Enabled(v, s) && w == Apply(v, s)
  }

  ghost predicate Run(h: seq<Tasks>) {
    |h| > 0 && forall i :: 0 <= i < |h| - 1 ==> Next(h[i], h[i + 1])
  }

  /** Nobody is left who could fork, or wake another. */
  predicate Frozen(w: Tasks) {
    forall p :: p in w ==> !Active(w, p)
  }

  predicate Bounded(w: Tasks) {
    forall p :: p in w ==> 1 < p < PID_LIMIT
  }

  /** kill(-1, SIGSTOP). */
  function Stopped(w: Tasks): Tasks {
    map p | p in w :: w[p].(stopped := true)
  }

  /** A scan that looks every PID up at a moment of its own, in ascending order, and finds none. */
  ghost predicate FindsNothing(h: seq<Tasks>, v: Pid -> nat) {
    && (forall p, q :: p <= q ==> v(p) <= v(q))
    && (forall p :: v(p) < |h| && p !in h[v(p)])
  }

  lemma {:induction false} FrozenOnly(h: seq<Tasks>, i: nat, k: nat)
    requires Run(h) && i <= k < |h| && Frozen(h[i])
    ensures Frozen(h[k]) && h[k].Keys <= h[i].Keys
    decreases k
  {
    if i < k {
      FrozenOnly(h, i, k - 1);
      assert Next(h[k - 1], h[k - 1 + 1]);
    }
  }

  /** Over frozen processes such a scan is exact: nothing is left at its end. */
  lemma {:induction false} FrozenScanExact(h: seq<Tasks>, v: Pid -> nat)
    requires Run(h) && Frozen(h[0]) && FindsNothing(h, v)
    ensures h[|h| - 1] == map[]
  {
    FrozenOnly(h, 0, |h| - 1);
    if h[|h| - 1] != map[] {
      var p :| p in h[|h| - 1];
      FrozenOnly(h, 0, v(p));
      FrozenOnly(h, v(p), |h| - 1);
    }
  }

  /** Without freezing it is not: a process forks a child behind the scan and is gone before the scan
      reaches it. */
  lemma {:induction false} UnfrozenScanMisses()
    ensures exists h, v :: Run(h) && Bounded(h[0]) && FindsNothing(h, v) && h[|h| - 1] != map[]
  {
    var w0: Tasks := map[9 := Task(false, false)];
    var w1 := Apply(w0, Fork(9, 3));
    var w2 := Apply(w1, Exit(9));
    var w3 := Apply(w2, Reap(9));
    var h := [w0, w1, w2, w3];
    forall i | 0 <= i < |h| - 1 ensures Next(h[i], h[i + 1]) {
      assert h[i + 1] == Apply(h[i], [Fork(9, 3), Exit(9), Reap(9)][i]);
    }
    var v: Pid -> nat := p => if p < 9 then 0 else 3;
    assert FindsNothing(h, v);
    assert 3 in h[3];
  }

  class Namespace {
    var tasks: Tasks

    predicate Valid()
      reads this
    {
      Bounded(tasks)
    }

    constructor ()
      ensures Valid()
    {
      tasks := map[];
    }

    /** The processes take any number of steps. */
    method Meanwhile()
      requires Valid()
      modifies this
      ensures Valid()
      ensures old(Frozen(tasks)) ==> Frozen(tasks) && tasks.Keys <= old(tasks.Keys)
    {
      var steps: nat := *;
      while steps > 0
        invariant Valid()
        invariant old(Frozen(tasks)) ==> Frozen(tasks) && tasks.Keys <= old(tasks.Keys)
      {
        var s: Step := *;
        if Enabled(tasks, s) {
          tasks := Apply(tasks, s);
        }
        steps := steps - 1;
      }
    }

    /** writerCount: the entries of /proc, each PID at a moment of its own. */
    method WriterCount() returns (count: nat)
      requires Valid()
      modifies this
      ensures Valid()
      ensures old(Frozen(tasks)) ==> Frozen(tasks) && tasks.Keys <= old(tasks.Keys) && (count == 0 ==> tasks == map[])
    {
      count := 0;
      for pid := 2 to PID_LIMIT
        invariant Valid()
        invariant old(Frozen(tasks)) ==> Frozen(tasks) && tasks.Keys <= old(tasks.Keys)
        invariant old(Frozen(tasks)) && count == 0 ==> forall p :: p in tasks ==> p >= pid
      {
        Meanwhile();
        if pid in tasks {
          count := count + 1;
        }
      }
    }

    /** stopWriters: a grace period after SIGTERM, then everything is frozen and killed until a scan finds
        nothing. Signals other than SIGSTOP only make processes exit, as they may anyway; ready says that
        the runner and the desktop were waited for. */
    method StopWriters() returns (ok: bool)
      requires Valid()
      modifies this
      ensures Valid() && (ok ==> tasks == map[])
    {
      var rounds: nat := *;
      while rounds > 0
        invariant Valid()
      {
        var ready: bool, failed: bool, expired: bool := *, *, *;
        if failed || expired {
          return false;
        }
        if ready {
          var count := WriterCount();
          if count == 0 {
            break;
          }
        }
        Meanwhile();
        rounds := rounds - 1;
      }
      tasks := Stopped(tasks);
      rounds := *;
      while rounds > 0
        invariant Valid() && Frozen(tasks)
      {
        Meanwhile();
        var ready: bool, failed: bool, expired: bool := *, *, *;
        if failed {
          return false;
        }
        if ready {
          var count := WriterCount();
          if count == 0 {
            return true;
          }
        }
        if expired {
          return false;
        }
        rounds := rounds - 1;
      }
      ok := false;
    }
  }
}
