/** Which processes of a worker belong to its resident desktop, decided from separate reads of /proc
    while processes fork, exit and are reparented (src/internal/worker/processes_linux.go). */
module ProcessTree {
  import opened Common

  type Pid = nat

  /** One process; born numbers processes in creation order and is never visible to an observer.
      A dead process has exited and waits for its parent to reap it. */
  datatype Process = Process(parent: Pid, start: nat, born: nat, dead: bool, subreaper: bool)

  /** The processes below PID 1. last is the start time of the latest holder of every PID ever used. */
  datatype World = World(procs: map<Pid, Process>, now: nat, count: nat, last: map<Pid, nat>)

  datatype Step =
    | Fork(parent: Pid, child: Pid)
    | Exit(pid: Pid)
    | Reap(pid: Pid)
    | BecomeSubreaper(pid: Pid)
    | Tick

  /** Parents are alive and older than their children; the resident root lives and adopts orphans. */
  ghost predicate Sound(w: World, root: Pid) {
    && root in w.procs && !w.procs[root].dead && w.procs[root].subreaper
    && forall p {:trigger SoundAt(w, p)} :: p in w.procs ==> SoundAt(w, p)
  }

  predicate SoundAt(w: World, p: Pid)
    requires p in w.procs
  {
    var c := w.procs[p];
    && p > 1 && c.born < w.count && p in w.last && w.last[p] == c.start && c.start <= w.now && c.parent >= 1
    && (c.parent > 1 ==> ParentSound(w, c))
  }

  predicate ParentSound(w: World, c: Process) {
    c.parent in w.procs && !w.procs[c.parent].dead && w.procs[c.parent].born < c.born && w.procs[c.parent].start <= c.start
  }

  /** Whose children the orphans of p's children become: the nearest subreaper above, or PID 1. */
  ghost function Reaper(w: World, root: Pid, p: Pid): (r: Pid)
    requires Sound(w, root) && (p > 1 ==> p in w.procs && !w.procs[p].dead)
    ensures r >= 1
    ensures r > 1 ==> p > 1 && r in w.procs && !w.procs[r].dead && w.procs[r].born <= w.procs[p].born && w.procs[r].start <= w.procs[p].start
    decreases if p > 1 && p in w.procs then w.procs[p].born + 1 else 0
  {
    if p <= 1 then 1
    else if w.procs[p].subreaper then p
    else
      assert SoundAt(w, p);
      Reaper(w, root, w.procs[p].parent)
  }

  predicate Enabled(w: World, root: Pid, s: Step) {
    match s
    case Fork(parent, child) =>
      && child > 1 && child !in w.procs && (child in w.last ==> w.last[child] < w.now)
      && (parent == 1 || (parent in w.procs && !w.procs[parent].dead))
    case Exit(p) => p in w.procs && !w.procs[p].dead && p != root
    case Reap(p) => p in w.procs && w.procs[p].dead
    case BecomeSubreaper(p) => p in w.procs && !w.procs[p].dead
    case Tick => true
  }

  /** A reused PID starts at a later tick than its previous holder. Exiting hands all children over
      in one step. */
  ghost function Apply(w: World, root: Pid, s: Step): World
    requires Sound(w, root) && Enabled(w, root, s)
  {
    match s
    case Fork(parent, child) =>
      w.(procs := w.procs[child := Process(parent, w.now, w.count, false, false)], count := w.count + 1, last := w.last[child := w.now])
    case Exit(p) =>
      assert SoundAt(w, p);
      var r := Reaper(w, root, w.procs[p].parent);
      w.(procs := map q | q in w.procs :: Inherited(w.procs[q], q, p, r))
    case Reap(p) => w.(procs := w.procs - {p})
    case BecomeSubreaper(p) => w.(procs := w.procs[p := w.procs[p].(subreaper := true)])
    case Tick => w.(now := w.now + 1)
  }

  function Inherited(c: Process, q: Pid, p: Pid, r: Pid): Process {
    if q == p then c.(dead := true) else if c.parent == p then c.(parent := r) else c
  }

  /** Descends from the resident root. */
  ghost predicate Beneath(w: World, root: Pid, p: Pid)
    requires Sound(w, root) && p in w.procs
    decreases w.procs[p].born
  {
    p == root ||
    (assert SoundAt(w, p);
     w.procs[p].parent > 1 && Beneath(w, root, w.procs[p].parent))
  }

  lemma {:induction false} StepSound(w: World, root: Pid, s: Step)
    requires Sound(w, root) && Enabled(w, root, s)
    ensures Sound(Apply(w, root, s), root)
  {
    var v := Apply(w, root, s);
    forall p | p in v.procs ensures SoundAt(v, p) {
      StepSoundAt(w, root, s, p);
    }
  }

  lemma {:induction false} StepSoundAt(w: World, root: Pid, s: Step, p: Pid)
    requires Sound(w, root) && Enabled(w, root, s) && p in Apply(w, root, s).procs
    ensures SoundAt(Apply(w, root, s), p)
  {
    if p in w.procs {
      assert SoundAt(w, p);
    }
    match s
    case Fork(parent, _) =>
      if parent != 1 {
        assert SoundAt(w, parent);
      }
    case Exit(q) => ExitSoundAt(w, root, q, p);
    case _ =>
  }

  lemma {:induction false} ExitSoundAt(w: World, root: Pid, q: Pid, p: Pid)
    requires Sound(w, root) && Enabled(w, root, Exit(q)) && p in w.procs
    ensures SoundAt(Apply(w, root, Exit(q)), p)
  {
    var v := Apply(w, root, Exit(q));
    assert SoundAt(w, p) && SoundAt(w, q);
    var r := Reaper(w, root, w.procs[q].parent);
    if v.procs[p].parent > 1 {
      assert v.procs[p].parent != q;
      assert v.procs[v.procs[p].parent] == Inherited(w.procs[v.procs[p].parent], v.procs[p].parent, q, r);
    }
  }

  lemma {:induction false} ReaperBeneath(w: World, root: Pid, p: Pid)
    requires Sound(w, root) && p in w.procs && !w.procs[p].dead
    ensures var r := Reaper(w, root, p); Beneath(w, root, p) <==> r > 1 && Beneath(w, root, r)
    decreases w.procs[p].born
  {
    assert SoundAt(w, p);
    if !w.procs[p].subreaper && w.procs[p].parent > 1 {
      ReaperBeneath(w, root, w.procs[p].parent);
    }
  }

  /** No step changes whether a process that lives through it is beneath the root. */
  lemma {:induction false} StepKeepsBeneath(w: World, root: Pid, s: Step, p: Pid)
    requires Sound(w, root) && Enabled(w, root, s) && Sound(Apply(w, root, s), root)
    requires p in w.procs && p in Apply(w, root, s).procs && w.procs[p].born == Apply(w, root, s).procs[p].born
    ensures Beneath(w, root, p) <==> Beneath(Apply(w, root, s), root, p)
    decreases w.procs[p].born
  {
    var v := Apply(w, root, s);
    assert SoundAt(w, p) && SoundAt(v, p);
    var parent := w.procs[p].parent;
    assert s.Exit? ==> SoundAt(w, s.pid);
    if p != root && parent > 1 {
      if s == Exit(parent) {
        ExitKeepsBeneath(w, root, parent, p);
      } else {
        assert v.procs[p].parent == parent;
        StepKeepsBeneath(w, root, s, parent);
      }
    }
  }

  lemma {:induction false} ExitKeepsBeneath(w: World, root: Pid, q: Pid, p: Pid)
    requires Sound(w, root) && Enabled(w, root, Exit(q)) && Sound(Apply(w, root, Exit(q)), root)
    requires p in w.procs && p != root && w.procs[p].parent == q
    ensures Beneath(w, root, p) <==> Beneath(Apply(w, root, Exit(q)), root, p)
    decreases w.procs[p].born, 0
  {
    var v, grand := Apply(w, root, Exit(q)), w.procs[q].parent;
    assert SoundAt(w, p) && SoundAt(w, q) && SoundAt(v, p);
    var r := Reaper(w, root, grand);
    assert v.procs[p].parent == r;
    if grand > 1 {
      ReaperBeneath(w, root, grand);
      if r > 1 {
        StepKeepsBeneath(w, root, Exit(q), r);
      }
    }
  }

  ghost predicate Next(w: World, v: World, root: Pid) {
    Sound(w, root) && exists s :: Enabled(w, root, s) && v == Apply(w, root, s)
  }

  ghost predicate History(h: seq<World>, root: Pid) {
    && |h| > 0 && Sound(h[0], root)
    && forall i :: 0 <= i < |h| - 1 ==> Next(h[i], h[i + 1], root)
  }

  lemma {:induction false} HistorySound(h: seq<World>, root: Pid, i: nat)
    requires History(h, root) && i < |h|
    ensures Sound(h[i], root)
  {
    if i > 0 {
      HistorySound(h, root, i - 1);
      assert Next(h[i - 1], h[i - 1 + 1], root);
      var s :| Enabled(h[i - 1], root, s) && h[i] == Apply(h[i - 1], root, s);
      StepSound(h[i - 1], root, s);
    }
  }

  /** The same process holds the PID in both worlds. */
  predicate SameProcess(w: World, v: World, p: Pid) {
    p in w.procs && p in v.procs && w.procs[p].born == v.procs[p].born
  }

  /** Where the parent stands in creation order; 0 under PID 1. */
  function Rank(w: World, p: Pid): nat
    requires p in w.procs
  {
    if w.procs[p].parent > 1 && w.procs[p].parent in w.procs then w.procs[w.procs[p].parent].born + 1 else 0
  }

  lemma {:induction false} StepFacts(w: World, v: World, root: Pid, p: Pid)
    requires Next(w, v, root) && Sound(v, root)
    ensures w.count <= v.count && (p in w.last ==> p in v.last && w.last[p] <= v.last[p])
    ensures p in v.procs && v.procs[p].born < w.count ==> p in w.procs
    ensures p in w.procs && p in v.procs ==> SameProcess(w, v, p) && w.procs[p].start == v.procs[p].start
    ensures p !in w.procs && p in v.procs ==> v.procs[p].born >= w.count && (p in w.last ==> w.last[p] < v.procs[p].start)
  {
  }

  lemma {:induction false} StepRank(w: World, v: World, root: Pid, p: Pid)
    requires Next(w, v, root) && Sound(v, root) && SameProcess(w, v, p)
    ensures Rank(v, p) <= Rank(w, p)
    ensures Beneath(w, root, p) <==> Beneath(v, root, p)
  {
    var s :| Enabled(w, root, s) && v == Apply(w, root, s);
    StepKeepsBeneath(w, root, s, p);
    assert SoundAt(w, p) && SoundAt(v, p);
    assert s.Exit? ==> SoundAt(w, s.pid);
  }

  /** A process seen later that is no younger than a moment was there at that moment. */
  lemma {:induction false} SeenBefore(h: seq<World>, root: Pid, i: nat, k: nat, p: Pid)
    requires History(h, root) && i <= k < |h| && p in h[k].procs && h[k].procs[p].born < h[i].count
    ensures SameProcess(h[i], h[k], p)
    decreases k
  {
    if i < k {
      HistorySound(h, root, k);
      assert Next(h[k - 1], h[k - 1 + 1], root);
      StepFacts(h[k - 1], h[k], root, p);
      Counts(h, root, i, k - 1);
      SeenBefore(h, root, i, k - 1, p);
    }
  }

  lemma {:induction false} Counts(h: seq<World>, root: Pid, i: nat, k: nat)
    requires History(h, root) && i <= k < |h|
    ensures h[i].count <= h[k].count
    decreases k
  {
    if i < k {
      HistorySound(h, root, k);
      assert Next(h[k - 1], h[k - 1 + 1], root);
      StepFacts(h[k - 1], h[k], root, 0);
      Counts(h, root, i, k - 1);
    }
  }

  lemma {:induction false} LastGrows(h: seq<World>, root: Pid, i: nat, k: nat, p: Pid)
    requires History(h, root) && i <= k < |h| && p in h[i].last
    ensures p in h[k].last && h[i].last[p] <= h[k].last[p]
    decreases k
  {
    if i < k {
      LastGrows(h, root, i, k - 1, p);
      HistorySound(h, root, k);
      assert Next(h[k - 1], h[k - 1 + 1], root);
      StepFacts(h[k - 1], h[k], root, p);
    }
  }

  /** PID and start time identify a process. */
  lemma {:induction false} StartIdentifies(h: seq<World>, root: Pid, i: nat, k: nat, p: Pid)
    requires History(h, root) && i <= k < |h| && p in h[i].procs && p in h[k].procs
    ensures if SameProcess(h[i], h[k], p) then h[i].procs[p].start == h[k].procs[p].start else h[i].procs[p].start < h[k].procs[p].start
    decreases k
  {
    if i < k {
      if p in h[k - 1].procs {
        StartIdentifies(h, root, i, k - 1, p);
        HistorySound(h, root, k);
        assert Next(h[k - 1], h[k - 1 + 1], root);
        StepFacts(h[k - 1], h[k], root, p);
      } else {
        Reborn(h, root, i, k, p);
      }
    }
  }

  /** A PID taken over by a new process has a later start time than it had before. */
  lemma {:induction false} Reborn(h: seq<World>, root: Pid, i: nat, k: nat, p: Pid)
    requires History(h, root) && i < k < |h| && p in h[i].procs && p !in h[k - 1].procs && p in h[k].procs
    ensures !SameProcess(h[i], h[k], p) && h[i].procs[p].start < h[k].procs[p].start
  {
    HistorySound(h, root, i);
    assert SoundAt(h[i], p);
    LastGrows(h, root, i, k - 1, p);
    Counts(h, root, i, k - 1);
    HistorySound(h, root, k);
    assert Next(h[k - 1], h[k - 1 + 1], root);
    StepFacts(h[k - 1], h[k], root, p);
  }

  /** While one process lives, its membership stays and its parent only gets older. */
  lemma {:induction false} LifeFacts(h: seq<World>, root: Pid, i: nat, k: nat, p: Pid)
    requires History(h, root) && i <= k < |h| && SameProcess(h[i], h[k], p)
    ensures Sound(h[i], root) && Sound(h[k], root)
    ensures Rank(h[k], p) <= Rank(h[i], p) && (Beneath(h[i], root, p) <==> Beneath(h[k], root, p))
    decreases k
  {
    HistorySound(h, root, i);
    HistorySound(h, root, k);
    if i < k {
      assert SoundAt(h[i], p);
      Counts(h, root, i, k - 1);
      SeenBefore(h, root, k - 1, k, p);
      LifeFacts(h, root, i, k - 1, p);
      assert Next(h[k - 1], h[k - 1 + 1], root);
      StepRank(h[k - 1], h[k], root, p);
    }
  }

  /** A process with the same parent PID at two moments had that same parent process all the time
      between them: once it loses a parent, all later ones are older. */
  lemma {:induction false} ParentFixed(h: seq<World>, root: Pid, i: nat, j: nat, k: nat, p: Pid)
    requires History(h, root) && i <= j <= k < |h| && SameProcess(h[i], h[k], p)
    requires h[i].procs[p].parent == h[k].procs[p].parent > 1
    ensures SameProcess(h[i], h[j], h[i].procs[p].parent)
  {
    var q := h[i].procs[p].parent;
    LifeFacts(h, root, i, k, p);
    assert SoundAt(h[i], p) && SoundAt(h[k], p);
    assert SoundAt(h[i], q);
    SeenBefore(h, root, i, k, q);
    Counts(h, root, i, j);
    SeenBefore(h, root, j, k, q);
  }
}

module Ancestry {
  import opened Common
  import opened ProcessTree

  const HOP_LIMIT := 4096

  /** What one read of a process's stat file tells. */
  datatype Identity = Identity(parent: Pid, start: nat)

  function Read(w: World, p: Pid): Option<Identity> {
    if p in w.procs then Some(Identity(w.procs[p].parent, w.procs[p].start)) else None
  }

  /** What tracing answers: resident or not, the tree changed under the reads, or too many hops. */
  datatype Answer = Member(resident: bool) | Changed | TooDeep

  /** The reads of one round at moments i, j and k let the trace go on to the parent. */
  predicate RoundPasses(h: seq<World>, pid: Pid, i: nat, j: nat, k: nat)
    requires i < |h| && j < |h| && k < |h|
  {
    var child := Read(h[i], pid);
    && child.Some? && child.value.parent > 1
    && Read(h[j], child.value.parent).Some? && Read(h[j], child.value.parent).value.start <= child.value.start
    && Read(h[k], pid) == child
  }

  /** A round that passes moves to the true parent of the very process it read first, even if PIDs
      were reused between its reads. */
  lemma {:induction false} RoundExact(h: seq<World>, root: Pid, pid: Pid, i: nat, j: nat, k: nat)
    requires History(h, root) && i <= j <= k < |h| && RoundPasses(h, pid, i, j, k) && pid != root
    ensures Sound(h[i], root) && Sound(h[j], root)
    ensures SameProcess(h[i], h[j], h[i].procs[pid].parent)
    ensures Beneath(h[i], root, pid) <==> Beneath(h[j], root, h[i].procs[pid].parent)
  {
    var q := h[i].procs[pid].parent;
    StartIdentifies(h, root, i, k, pid);
    ParentFixed(h, root, i, j, k, pid);
    HistorySound(h, root, i);
    assert SoundAt(h[i], pid);
    LifeFacts(h, root, i, j, q);
  }

  /** Reading a PID again and finding the same start time is reading the same process. */
  lemma {:induction false} CarryOver(h: seq<World>, root: Pid, p: Pid, i: nat, k: nat)
    requires History(h, root) && i <= k < |h| && Read(h[i], p).Some? && Read(h[k], p).Some?
    requires Read(h[i], p).value.start == Read(h[k], p).value.start
    ensures Sound(h[i], root) && Sound(h[k], root) && SameProcess(h[i], h[k], p)
    ensures Beneath(h[i], root, p) <==> Beneath(h[k], root, p)
  {
    StartIdentifies(h, root, i, k, p);
    LifeFacts(h, root, i, k, p);
  }

  /** The moments of one round's reads: the process, its parent, and the process again. */
  datatype Moments = Moments(child: nat, parent: nat, again: nat)

  /** One round after the other, none after last. */
  predicate InTurn(m: seq<Moments>, last: nat) {
    && (forall n :: 0 <= n < |m| ==> m[n].child <= m[n].parent <= m[n].again <= last)
    && (forall n :: 0 <= n < |m| - 1 ==> m[n].again <= m[n + 1].child)
  }

  /** The PID that the next round goes on with. */
  function ParentAt(h: seq<World>, pid: Pid, i: nat): Pid
    requires i < |h|
  {
    if pid in h[i].procs then h[i].procs[pid].parent else 0
  }

  predicate Passes(h: seq<World>, pid: Pid, x: Moments)
    requires x.child < |h| && x.parent < |h| && x.again < |h|
  {
    RoundPasses(h, pid, x.child, x.parent, x.again)
  }

  /** What tracing answers when its rounds read at the given moments, and no further round is allowed. */
  function Trace(h: seq<World>, root: Pid, rootStart: nat, pid: Pid, m: seq<Moments>): Answer
    requires |h| > 0 && InTurn(m, |h| - 1)
    decreases |m|
  {
    if m == [] then TooDeep
    else
      var child := Read(h[m[0].child], pid);
      if child.None? then Changed
      else if pid == root then Member(child.value.start == rootStart)
      else if child.value.parent <= 1 then Member(false)
      else if Passes(h, pid, m[0]) then Trace(h, root, rootStart, child.value.parent, m[1..])
      else Changed
  }

  /** Between being verified and being read again the PID passed to another process: the start times
      differ, a comparison the reads would allow. */
  predicate TakenOver(h: seq<World>, q: Pid, j: nat, i: nat)
    requires j < |h| && i < |h|
  {
    q in h[j].procs && q in h[i].procs && h[j].procs[q].start != h[i].procs[q].start
  }

  /** The membership of the PID's holder differs between the two moments. */
  ghost predicate Flips(h: seq<World>, root: Pid, q: Pid, j: nat, i: nat)
    requires j <= i < |h| && History(h, root)
  {
    HistorySound(h, root, j);
    HistorySound(h, root, i);
    q in h[j].procs && q in h[i].procs && Beneath(h[j], root, q) != Beneath(h[i], root, q)
  }

  /** The trace goes on from its first round to a second. */
  predicate GoesOn(h: seq<World>, root: Pid, pid: Pid, m: seq<Moments>)
    requires |h| > 0 && InTurn(m, |h| - 1)
  {
    |m| >= 2 && pid != root && Passes(h, pid, m[0])
  }

  function Takeovers(h: seq<World>, root: Pid, pid: Pid, m: seq<Moments>): nat
    requires |h| > 0 && InTurn(m, |h| - 1)
    decreases |m|
  {
    if !GoesOn(h, root, pid, m) then 0
    else
      var q := ParentAt(h, pid, m[0].child);
      (if TakenOver(h, q, m[0].parent, m[1].child) then 1 else 0) + Takeovers(h, root, q, m[1..])
  }

  /** How many times the holder's membership differs from that of the process just verified. */
  ghost function FlipCount(h: seq<World>, root: Pid, pid: Pid, m: seq<Moments>): nat
    requires History(h, root) && InTurn(m, |h| - 1)
    decreases |m|
  {
    if !GoesOn(h, root, pid, m) then 0
    else
      var q := ParentAt(h, pid, m[0].child);
      (if Flips(h, root, q, m[0].parent, m[1].child) then 1 else 0) + FlipCount(h, root, q, m[1..])
  }

  /** A definite answer is the truth at its first read if and only if an even number of the takeovers
      between its rounds change membership. */
  lemma {:induction false} TraceExact(h: seq<World>, root: Pid, pid: Pid, m: seq<Moments>)
    requires History(h, root) && InTurn(m, |h| - 1) && Trace(h, root, h[0].procs[root].start, pid, m).Member?
    ensures Sound(h[m[0].child], root) && pid in h[m[0].child].procs
    ensures (Trace(h, root, h[0].procs[root].start, pid, m).resident <==> Beneath(h[m[0].child], root, pid))
       <==> FlipCount(h, root, pid, m) % 2 == 0
    decreases |m|
  {
    if pid == root || ParentAt(h, pid, m[0].child) <= 1 {
      TraceEnds(h, root, pid, m);
    } else {
      TraceGoesOn(h, root, h[0].procs[root].start, pid, m);
      TraceExact(h, root, ParentAt(h, pid, m[0].child), m[1..]);
      TraceFurther(h, root, pid, m);
    }
  }

  lemma {:induction false} TraceEnds(h: seq<World>, root: Pid, pid: Pid, m: seq<Moments>)
    requires History(h, root) && InTurn(m, |h| - 1) && Trace(h, root, h[0].procs[root].start, pid, m).Member?
    requires pid == root || ParentAt(h, pid, m[0].child) <= 1
    ensures Sound(h[m[0].child], root) && pid in h[m[0].child].procs && FlipCount(h, root, pid, m) == 0
    ensures Trace(h, root, h[0].procs[root].start, pid, m).resident <==> Beneath(h[m[0].child], root, pid)
  {
    RootStays(h, root, m[0].child);
    HistorySound(h, root, m[0].child);
  }

  lemma {:induction false} TraceFurther(h: seq<World>, root: Pid, pid: Pid, m: seq<Moments>)
    requires History(h, root) && InTurn(m, |h| - 1) && GoesOn(h, root, pid, m) && InTurn(m[1..], |h| - 1)
    requires Trace(h, root, h[0].procs[root].start, pid, m).Member?
    requires ParentAt(h, pid, m[0].child) in h[m[1].child].procs && Sound(h[m[1].child], root)
    requires var q := ParentAt(h, pid, m[0].child);
             Trace(h, root, h[0].procs[root].start, q, m[1..]) == Trace(h, root, h[0].procs[root].start, pid, m)
             && ((Trace(h, root, h[0].procs[root].start, q, m[1..]).resident <==> Beneath(h[m[1].child], root, q))
                 <==> FlipCount(h, root, q, m[1..]) % 2 == 0)
    ensures Sound(h[m[0].child], root) && pid in h[m[0].child].procs
    ensures (Trace(h, root, h[0].procs[root].start, pid, m).resident <==> Beneath(h[m[0].child], root, pid))
       <==> FlipCount(h, root, pid, m) % 2 == 0
  {
    RoundFlip(h, root, pid, m);
  }

  lemma {:induction false} TraceGoesOn(h: seq<World>, root: Pid, rootStart: nat, pid: Pid, m: seq<Moments>)
    requires |h| > 0 && InTurn(m, |h| - 1) && Trace(h, root, rootStart, pid, m).Member?
    requires pid != root && ParentAt(h, pid, m[0].child) > 1
    ensures GoesOn(h, root, pid, m) && pid in h[m[0].child].procs && InTurn(m[1..], |h| - 1)
    ensures Trace(h, root, rootStart, pid, m) == Trace(h, root, rootStart, ParentAt(h, pid, m[0].child), m[1..])
  {
  }

  /** Over one round and the pause after it, membership passes to the parent's PID unless it flips. */
  lemma {:induction false} RoundFlip(h: seq<World>, root: Pid, pid: Pid, m: seq<Moments>)
    requires History(h, root) && InTurn(m, |h| - 1) && GoesOn(h, root, pid, m)
    requires ParentAt(h, pid, m[0].child) in h[m[1].child].procs
    ensures Sound(h[m[0].child], root) && Sound(h[m[1].child], root)
    ensures (Beneath(h[m[0].child], root, pid) <==> Beneath(h[m[1].child], root, ParentAt(h, pid, m[0].child)))
       <==> !Flips(h, root, ParentAt(h, pid, m[0].child), m[0].parent, m[1].child)
  {
    HistorySound(h, root, m[0].child);
    HistorySound(h, root, m[1].child);
    RoundExact(h, root, pid, m[0].child, m[0].parent, m[0].again);
  }

  lemma {:induction false} FlipNeedsTakeover(h: seq<World>, root: Pid, q: Pid, j: nat, i: nat)
    requires History(h, root) && j <= i < |h| && Flips(h, root, q, j, i)
    ensures TakenOver(h, q, j, i)
  {
    if h[j].procs[q].start == h[i].procs[q].start {
      CarryOver(h, root, q, j, i);
    }
  }

  lemma {:induction false} FlipsAreTakeovers(h: seq<World>, root: Pid, pid: Pid, m: seq<Moments>)
    requires History(h, root) && InTurn(m, |h| - 1)
    ensures FlipCount(h, root, pid, m) <= Takeovers(h, root, pid, m)
    decreases |m|
  {
    if GoesOn(h, root, pid, m) {
      var q := ParentAt(h, pid, m[0].child);
      if Flips(h, root, q, m[0].parent, m[1].child) {
        FlipNeedsTakeover(h, root, q, m[0].parent, m[1].child);
      }
      FlipsAreTakeovers(h, root, q, m[1..]);
    }
  }

  /** A steady trace, in which each round finds the start time that the last one saw, is exact; and
      one takeover misleads exactly when the new holder's membership differs. */
  lemma {:induction false} FewTakeovers(h: seq<World>, root: Pid, pid: Pid, m: seq<Moments>)
    requires History(h, root) && InTurn(m, |h| - 1) && Trace(h, root, h[0].procs[root].start, pid, m).Member?
    requires Takeovers(h, root, pid, m) <= 1
    ensures Sound(h[m[0].child], root) && pid in h[m[0].child].procs
    ensures (Trace(h, root, h[0].procs[root].start, pid, m).resident <==> Beneath(h[m[0].child], root, pid))
       <==> FlipCount(h, root, pid, m) == 0
    ensures Takeovers(h, root, pid, m) == 0 ==> FlipCount(h, root, pid, m) == 0
  {
    TraceExact(h, root, pid, m);
    FlipsAreTakeovers(h, root, pid, m);
  }

  /** No PID passes to another process between two moments. */
  ghost predicate NoReuse(h: seq<World>, a: nat, b: nat) {
    forall i: nat, k: nat, p: Pid {:trigger SameHolder(h, i, k, p)} :: a <= i <= k <= b ==> SameHolder(h, i, k, p)
  }

  predicate SameHolder(h: seq<World>, i: nat, k: nat, p: Pid) {
    i < |h| && k < |h| && p in h[i].procs && p in h[k].procs ==> SameProcess(h[i], h[k], p)
  }

  lemma {:induction false} NoReuseNoFlip(h: seq<World>, root: Pid, a: nat, b: nat, q: Pid, j: nat, i: nat)
    requires History(h, root) && NoReuse(h, a, b) && a <= j <= i <= b < |h|
    ensures !Flips(h, root, q, j, i)
  {
    assert SameHolder(h, j, i, q);
    if q in h[j].procs && q in h[i].procs {
      LifeFacts(h, root, j, i, q);
    }
  }

  lemma {:induction false} NoReuseNoFlips(h: seq<World>, root: Pid, a: nat, b: nat, pid: Pid, m: seq<Moments>)
    requires History(h, root) && NoReuse(h, a, b) && b < |h| && InTurn(m, b) && (m != [] ==> a <= m[0].child)
    ensures FlipCount(h, root, pid, m) == 0
    decreases |m|
  {
    if GoesOn(h, root, pid, m) {
      var q := ParentAt(h, pid, m[0].child);
      NoReuseNoFlip(h, root, a, b, q, m[0].parent, m[1].child);
      NoReuseNoFlips(h, root, a, b, q, m[1..]);
    }
  }

  /** The rounds m lead from pid to current. */
  predicate Leads(h: seq<World>, root: Pid, pid: Pid, m: seq<Moments>, current: Pid)
    requires |h| > 0 && InTurn(m, |h| - 1)
    decreases |m|
  {
    if m == [] then pid == current
    else pid != root && Passes(h, pid, m[0]) && Leads(h, root, ParentAt(h, pid, m[0].child), m[1..], current)
  }

  lemma {:induction false} LeadsThen(h: seq<World>, root: Pid, pid: Pid, m: seq<Moments>, current: Pid, x: Moments)
    requires x.child <= x.parent <= x.again < |h| && InTurn(m + [x], |h| - 1) && InTurn(m, |h| - 1)
    requires Leads(h, root, pid, m, current) && current != root && Passes(h, current, x)
    ensures Leads(h, root, pid, m + [x], ParentAt(h, current, x.child))
    decreases |m|
  {
    if m == [] {
      assert (m + [x])[1..] == [];
    } else {
      assert (m + [x])[1..] == m[1..] + [x];
      InTurnTail(m + [x], |h| - 1);
      LeadsThen(h, root, ParentAt(h, pid, m[0].child), m[1..], current, x);
    }
  }

  lemma {:induction false} InTurnThen(m: seq<Moments>, x: Moments, last: nat)
    requires InTurn(m, x.child) && x.child <= x.parent <= x.again <= last
    ensures InTurn(m, last) && InTurn(m + [x], last) && InTurn([x], last)
  {
  }

  lemma {:induction false} InTurnTail(m: seq<Moments>, last: nat)
    requires InTurn(m, last) && m != []
    ensures InTurn(m[1..], last)
  {
    forall n | 0 <= n < |m| - 2 ensures m[1..][n].again <= m[1..][n + 1].child {
      assert m[n + 1].again <= m[n + 1 + 1].child;
    }
  }

  lemma {:induction false} TraceThen(h: seq<World>, root: Pid, rootStart: nat, pid: Pid, m: seq<Moments>, current: Pid, rest: seq<Moments>)
    requires |h| > 0 && InTurn(m + rest, |h| - 1) && InTurn(m, |h| - 1) && InTurn(rest, |h| - 1)
    requires Leads(h, root, pid, m, current)
    ensures Trace(h, root, rootStart, pid, m + rest) == Trace(h, root, rootStart, current, rest)
    decreases |m|
  {
    if m == [] {
      assert m + rest == rest;
    } else {
      assert (m + rest)[1..] == m[1..] + rest;
      InTurnTail(m + rest, |h| - 1);
      TraceThen(h, root, rootStart, ParentAt(h, pid, m[0].child), m[1..], current, rest);
    }
  }

  lemma {:induction false} RoundAdded(h: seq<World>, root: Pid, rootStart: nat, pid: Pid, m: seq<Moments>, current: Pid, x: Moments, last: nat)
    requires last < |h| && InTurn(m, x.child) && x.child <= x.parent <= x.again <= last && Leads(h, root, pid, m, current)
    ensures InTurn(m + [x], last)
    ensures Trace(h, root, rootStart, pid, m + [x]) == Trace(h, root, rootStart, current, [x])
    ensures current != root && Passes(h, current, x) ==> Leads(h, root, pid, m + [x], ParentAt(h, current, x.child))
  {
    InTurnThen(m, x, last);
    InTurnThen(m, x, |h| - 1);
    TraceThen(h, root, rootStart, pid, m, current, [x]);
    if current != root && Passes(h, current, x) {
      LeadsThen(h, root, pid, m, current, x);
    }
  }

  lemma {:induction false} LeadsNoFurther(h: seq<World>, root: Pid, rootStart: nat, pid: Pid, m: seq<Moments>, current: Pid)
    requires |h| > 0 && InTurn(m, |h| - 1) && Leads(h, root, pid, m, current)
    ensures Trace(h, root, rootStart, pid, m) == TooDeep
  {
    assert m + [] == m;
    TraceThen(h, root, rootStart, pid, m, current, []);
  }

  /** When another process has taken the PID between two rounds, the trace of an outsider can answer
      that it is resident. */
  lemma {:induction false} ReuseBetweenRoundsMisleads()
    ensures exists h: seq<World>, root: Pid, pid: Pid, m: seq<Moments> ::
      && History(h, root) && InTurn(m, |h| - 1) && |m| > 0 && Sound(h[m[0].child], root)
      && Trace(h, root, h[0].procs[root].start, pid, m) == Member(true)
      && pid in h[m[0].child].procs && !Beneath(h[m[0].child], root, pid)
  {
    var h := Takeover();
    var m := [Moments(0, 0, 0), Moments(4, 4, 4), Moments(4, 4, 4)];
    assert m[1..] == [m[1], m[2]] && m[1..][1..] == [m[2]];
    assert Trace(h, 2, 0, 2, [m[2]]) == Member(true);
    assert Trace(h, 2, 0, 6, [m[1], m[2]]) == Member(true);
    assert Trace(h, 2, 0, 5, m) == Member(true);
    assert !Beneath(h[0], 2, 6);
    assert !Beneath(h[0], 2, 5);
  }

  /** An outsider's parent exits, and a child of the root takes its PID. */
  lemma {:induction false} Takeover() returns (h: seq<World>)
    ensures History(h, 2) && |h| == 5 && Sound(h[0], 2)
    ensures h[0].procs == map[2 := Process(1, 0, 0, false, true), 6 := Process(1, 0, 1, false, false), 5 := Process(6, 0, 2, false, false)]
    ensures 6 in h[4].procs && h[4].procs[6].parent == 2 && 2 in h[4].procs && h[4].procs[2].start == 0 && h[4].procs[6].start == 1
  {
    var desktop, outer, inner := Process(1, 0, 0, false, true), Process(1, 0, 1, false, false), Process(6, 0, 2, false, false);
    var w0 := World(map[2 := desktop, 6 := outer, 5 := inner], 0, 3, map[2 := 0, 6 := 0, 5 := 0]);
    assert SoundAt(w0, 2) && SoundAt(w0, 6) && SoundAt(w0, 5);
    assert Sound(w0, 2);
    h := [w0];
    h := Then(h, 2, Exit(6));
    h := Then(h, 2, Reap(6));
    h := Then(h, 2, Tick);
    h := Then(h, 2, Fork(2, 6));
  }

  lemma {:induction false} Then(h: seq<World>, root: Pid, s: Step) returns (g: seq<World>)
    requires History(h, root) && Sound(h[|h| - 1], root) && Enabled(h[|h| - 1], root, s)
    ensures History(g, root) && |g| == |h| + 1 && g[..|h|] == h && g[|h|] == Apply(h[|h| - 1], root, s)
    ensures Sound(g[|h|], root)
  {
    var v := Apply(h[|h| - 1], root, s);
    g := h + [v];
    StepSound(h[|h| - 1], root, s);
    forall i | 0 <= i < |g| - 1 ensures Next(g[i], g[i + 1], root) {
      assert i < |h| - 1 ==> Next(h[i], h[i + 1], root);
    }
  }

  ghost predicate AllResident(w: World, root: Pid) {
    Sound(w, root) && forall p :: p in w.procs ==> Beneath(w, root, p)
  }

  /** The enumeration looked p up at some moment from a to e, and pids says what it found. */
  predicate LookedUp(h: seq<World>, pids: set<Pid>, a: nat, e: nat, p: Pid) {
    exists i: nat :: a <= i <= e && i < |h| && (p in pids <==> p in h[i].procs)
  }

  /** An enumeration is not a snapshot: every PID is looked up at a moment of its own. */
  ghost predicate Listing(h: seq<World>, pids: set<Pid>, a: nat, e: nat) {
    a <= e < |h| && forall p: Pid :: LookedUp(h, pids, a, e, p)
  }

  ghost predicate CalmStep(w: World, v: World, root: Pid) {
    && Sound(w, root)
    && exists s :: Enabled(w, root, s) && v == Apply(w, root, s) && !(s.Fork? && s.parent == 1) && !(s.Reap? && !Beneath(w, root, s.pid))
  }

  /** Between the two moments PID 1 forks nothing, and no process outside the resident tree is reaped. */
  ghost predicate Calm(h: seq<World>, root: Pid, a: nat, e: nat) {
    forall i: nat {:trigger CalmAt(h, root, i)} :: a <= i < e ==> CalmAt(h, root, i)
  }

  ghost predicate CalmAt(h: seq<World>, root: Pid, i: nat) {
    i + 1 < |h| && CalmStep(h[i], h[i + 1], root)
  }

  ghost predicate Outsider(w: World, root: Pid, p: Pid) {
    Sound(w, root) && p in w.procs && !Beneath(w, root, p)
  }

  lemma {:induction false} CalmStepKeeps(w: World, v: World, root: Pid, p: Pid)
    requires CalmStep(w, v, root) && Sound(v, root) && Outsider(w, root, p)
    ensures SameProcess(w, v, p) && Outsider(v, root, p)
  {
    var s :| Enabled(w, root, s) && v == Apply(w, root, s) && !(s.Fork? && s.parent == 1) && !(s.Reap? && !Beneath(w, root, s.pid));
    assert p in v.procs && v.procs[p].born == w.procs[p].born;
    StepKeepsBeneath(w, root, s, p);
  }

  /** While it is calm an outsider stays. */
  lemma {:induction false} OutsiderStays(h: seq<World>, root: Pid, f: nat, e: nat, p: Pid)
    requires History(h, root) && f <= e < |h| && Calm(h, root, f, e) && Outsider(h[f], root, p)
    ensures SameProcess(h[f], h[e], p) && Outsider(h[e], root, p)
    decreases e
  {
    if f < e {
      OutsiderStays(h, root, f, e - 1, p);
      assert CalmAt(h, root, e - 1);
      HistorySound(h, root, e);
      CalmStepKeeps(h[e - 1], h[e - 1 + 1], root, p);
    }
  }

  lemma {:induction false} CalmBirth(w: World, v: World, root: Pid, p: Pid) returns (x: Pid)
    requires CalmStep(w, v, root) && Sound(v, root) && p !in w.procs && Outsider(v, root, p)
    ensures Outsider(v, root, x) && v.procs[x].born < v.procs[p].born
  {
    var s :| Enabled(w, root, s) && v == Apply(w, root, s) && !(s.Fork? && s.parent == 1) && !(s.Reap? && !Beneath(w, root, s.pid));
    x := s.parent;
    assert SoundAt(v, p) && SoundAt(w, x);
  }

  /** An outsider that appeared while it was calm has an older outsider beside it. */
  lemma {:induction false} OlderOutsider(h: seq<World>, root: Pid, i: nat, e: nat, p: Pid) returns (x: Pid)
    requires History(h, root) && i <= e < |h| && Calm(h, root, i, e) && p !in h[i].procs && Outsider(h[e], root, p)
    ensures Outsider(h[e], root, x) && h[e].procs[x].born < h[e].procs[p].born
    decreases e
  {
    HistorySound(h, root, e - 1);
    HistorySound(h, root, e);
    assert CalmAt(h, root, e - 1);
    assert Next(h[e - 1], h[e - 1 + 1], root);
    if p in h[e - 1].procs {
      StepFacts(h[e - 1], h[e], root, p);
      StepRank(h[e - 1], h[e], root, p);
      x := OlderOutsider(h, root, i, e - 1, p);
      CalmStepKeeps(h[e - 1], h[e - 1 + 1], root, x);
    } else {
      x := CalmBirth(h[e - 1], h[e - 1 + 1], root, p);
    }
  }

  /** Whatever a calm enumeration missed descends from something it listed: the oldest outsider was
      there all the time. */
  lemma {:induction false} NothingMissed(h: seq<World>, root: Pid, pids: set<Pid>, a: nat, e: nat, p: Pid)
    requires History(h, root) && Listing(h, pids, a, e) && Calm(h, root, a, e) && p in h[e].procs
    requires forall q :: q in pids ==> !Outsider(h[e], root, q)
    ensures Sound(h[e], root) && Beneath(h[e], root, p)
    decreases h[e].procs[p].born
  {
    HistorySound(h, root, e);
    if !Beneath(h[e], root, p) {
      assert LookedUp(h, pids, a, e, p);
      var i: nat :| a <= i <= e && i < |h| && (p in pids <==> p in h[i].procs);
      var x := OlderOutsider(h, root, i, e, p);
      NothingMissed(h, root, pids, a, e, x);
      assert false;
    }
  }

  /** When an outsider is reaped in the middle, its child can take a PID that was looked up before and
      hide from the enumeration, and everything listed is still truly resident. */
  lemma {:induction false} ReapedParentHidesChild()
    ensures exists h: seq<World>, root: Pid, a: nat, e: nat, m: map<Pid, seq<Moments>> ::
      && History(h, root) && Certified(h, root, h[0].procs[root].start, a, e, e, m) && NoReuse(h, a, e)
      && (forall p :: p in m ==> Sound(h[e], root) && p in h[e].procs && Beneath(h[e], root, p))
      && exists p :: Outsider(h[e], root, p)
  {
    var h := Hop();
    var m: map<Pid, seq<Moments>> := map[2 := [Moments(3, 3, 3)]];
    forall p: Pid ensures LookedUp(h, m.Keys, 0, 3, p) {
      assert p in m.Keys <==> p in h[if p < 9 then 0 else 3].procs;
    }
    assert Trace(h, 2, 0, 2, m[2]) == Member(true);
    assert Certifies(h, 2, 0, 3, 3, 2, m[2]);
    assert Certified(h, 2, 0, 0, 3, 3, m);
    HopReusesNothing(h);
    assert Outsider(h[3], 2, 3);
  }

  /** An outsider forks, exits and is reaped. */
  lemma {:induction false} Hop() returns (h: seq<World>)
    ensures History(h, 2) && |h| == 4 && Sound(h[0], 2) && Sound(h[3], 2)
    ensures h[0].procs == map[2 := Process(1, 0, 0, false, true), 9 := Process(1, 0, 1, false, false)]
    ensures h[1].procs == h[0].procs[3 := Process(9, 0, 2, false, false)]
    ensures h[2].procs == map[2 := Process(1, 0, 0, false, true), 9 := Process(1, 0, 1, true, false), 3 := Process(1, 0, 2, false, false)]
    ensures h[3].procs == map[2 := Process(1, 0, 0, false, true), 3 := Process(1, 0, 2, false, false)]
  {
    var desktop, outer := Process(1, 0, 0, false, true), Process(1, 0, 1, false, false);
    var w0 := World(map[2 := desktop, 9 := outer], 0, 2, map[2 := 0, 9 := 0]);
    assert SoundAt(w0, 2) && SoundAt(w0, 9);
    assert Sound(w0, 2);
    h := [w0];
    h := Then(h, 2, Fork(9, 3));
    h := Then(h, 2, Exit(9));
    assert h[2].procs[2] == desktop && h[2].procs[9] == outer.(dead := true) && h[2].procs[3] == Process(1, 0, 2, false, false);
    h := Then(h, 2, Reap(9));
  }

  lemma {:induction false} HopReusesNothing(h: seq<World>)
    requires |h| == 4 && h[0].procs == map[2 := Process(1, 0, 0, false, true), 9 := Process(1, 0, 1, false, false)]
    requires h[1].procs == h[0].procs[3 := Process(9, 0, 2, false, false)]
    requires h[2].procs == map[2 := Process(1, 0, 0, false, true), 9 := Process(1, 0, 1, true, false), 3 := Process(1, 0, 2, false, false)]
    requires h[3].procs == map[2 := Process(1, 0, 0, false, true), 3 := Process(1, 0, 2, false, false)]
    ensures NoReuse(h, 0, 3)
  {
    forall i: nat, k: nat, p: Pid | 0 <= i <= k <= 3 ensures SameHolder(h, i, k, p) {
    }
  }

  ghost predicate NextWithoutInit(w: World, v: World, root: Pid) {
    Sound(w, root) && exists s :: Enabled(w, root, s) && v == Apply(w, root, s) && !(s.Fork? && s.parent == 1)
  }

  /** Once every process is beneath the root, an outsider can only come from a fork by PID 1. */
  lemma {:induction false} NoOutsiderWithoutInit(h: seq<World>, root: Pid, e: nat, k: nat)
    requires History(h, root) && e <= k < |h| && AllResident(h[e], root)
    requires forall i :: e <= i < k ==> NextWithoutInit(h[i], h[i + 1], root)
    ensures AllResident(h[k], root)
    decreases k
  {
    if e < k {
      NoOutsiderWithoutInit(h, root, e, k - 1);
      var w, v := h[k - 1], h[k];
      HistorySound(h, root, k);
      assert NextWithoutInit(w, h[k - 1 + 1], root);
      var s :| Enabled(w, root, s) && v == Apply(w, root, s) && !(s.Fork? && s.parent == 1);
      forall p | p in v.procs ensures Beneath(v, root, p) {
        if p in w.procs {
          StepKeepsBeneath(w, root, s, p);
        } else {
          assert SoundAt(w, s.parent);
          StepKeepsBeneath(w, root, s, s.parent);
        }
      }
    }
  }

  ghost function AllPids(h: seq<World>): set<Pid> {
    set i, p | 0 <= i < |h| && p in h[i].procs :: p
  }

  function Found(pids: seq<Pid>): set<Pid> {
    set p | p in pids
  }

  /** The least PID from cursor on. */
  predicate IsNext(pids: set<Pid>, cursor: Pid, next: Option<Pid>) {
    && (forall p :: p in pids && p >= cursor ==> next.Some? && next.value <= p)
    && (next.Some? ==> next.value in pids && next.value >= cursor)
  }

  method NextPid(pids: set<Pid>, cursor: Pid) returns (next: Option<Pid>)
    ensures IsNext(pids, cursor, next)
  {
    next := None;
    var rest := pids;
    while rest != {}
      invariant rest <= pids && IsNext(pids - rest, cursor, next)
    {
      var p :| p in rest;
      assert pids - (rest - {p}) == pids - rest + {p};
      rest := rest - {p};
      if p >= cursor && (next.None? || p < next.value) {
        next := Some(p);
      }
    }
    assert pids - rest == pids;
  }

  predicate WasRead(h: seq<World>, e: nat, t: nat, p: Pid, identity: Identity) {
    exists i: nat :: e <= i <= t && i < |h| && Read(h[i], p) == Some(identity)
  }

  function More(pids: seq<Pid>, next: Option<Pid>): seq<Pid> {
    if next.None? then pids else pids + [next.value]
  }

  lemma {:induction false} LookupsStay(h: seq<World>, pids: seq<Pid>, a: nat, before: nat, t: nat, cursor: Pid, next: Option<Pid>)
    requires a <= before <= t < |h| && IsNext(h[t].procs.Keys, cursor, next)
    requires forall p :: p in pids ==> p < cursor
    requires forall p: Pid :: p < cursor ==> LookedUp(h, Found(pids), a, before, p)
    ensures forall p: Pid {:trigger LookedUp(h, Found(More(pids, next)), a, t, p)} ::
      next.None? || p <= next.value ==> LookedUp(h, Found(More(pids, next)), a, t, p)
  {
    forall p: Pid {:trigger LookedUp(h, Found(More(pids, next)), a, t, p)} | next.None? || p <= next.value
      ensures LookedUp(h, Found(More(pids, next)), a, t, p)
    {
      if p < cursor {
        assert LookedUp(h, Found(pids), a, before, p);
        var i: nat :| a <= i <= before && (p in Found(pids) <==> p in h[i].procs);
        assert p in Found(More(pids, next)) <==> p in Found(pids);
      } else {
        assert p in h[t].procs <==> next == Some(p);
      }
    }
  }

  /** A process that reads /proc: time passes before every read. */
  class Observer {
    const h: seq<World>
    const root: Pid
    const rootStart: nat
    var t: nat

    ghost predicate Valid()
      reads this
    {
      History(h, root) && t < |h| && h[0].procs[root].start == rootStart
    }

    /** pinProcess: the root is identified by its PID and start time. */
    constructor (h: seq<World>, root: Pid)
      requires History(h, root)
      ensures Valid() && this.h == h && this.root == root
    {
      this.h, this.root, t := h, root, 0;
      rootStart := h[0].procs[root].start;
    }

    method Wait()
      requires Valid()
      modifies `t
      ensures Valid() && t >= old(t)
    {
      var later: nat := *;
      if t <= later < |h| {
        t := later;
      }
    }

    method ReadProcess(pid: Pid) returns (r: Option<Identity>)
      requires Valid()
      modifies `t
      ensures Valid() && t >= old(t) && r == Read(h[t], pid)
    {
      Wait();
      r := Read(h[t], pid);
    }

    /** traceAncestry. m holds the moments of its reads; TraceExact says when its answer is true. */
    method TraceAncestry(pid: Pid) returns (a: Answer, ghost m: seq<Moments>)
      requires Valid() && pid > 1
      modifies `t
      ensures Valid() && t >= old(t) && InTurn(m, t) && (m != [] ==> old(t) <= m[0].child)
      ensures a == Trace(h, root, rootStart, pid, m) && |m| <= HOP_LIMIT && (a.TooDeep? ==> |m| == HOP_LIMIT)
    {
      var current := pid;
      var hops := 0;
      m := [];
      while current > 1 && hops < HOP_LIMIT
        invariant Valid() && t >= old(t) && InTurn(m, t) && (m != [] ==> old(t) <= m[0].child)
        invariant hops == |m| <= HOP_LIMIT && current > 1 && Leads(h, root, pid, m, current)
        decreases HOP_LIMIT - hops
      {
        ghost var x: Moments;
        var next;
        a, next, x := OneRound(current);
        RoundAdded(h, root, rootStart, pid, m, current, x, t);
        m := m + [x];
        if next.None? {
          return;
        }
        current, hops := next.value, hops + 1;
      }
      a := TooDeep;
      LeadsNoFurther(h, root, rootStart, pid, m, current);
    }

    /** One round: it ends the trace with an answer or names the parent to go on with. */
    method OneRound(pid: Pid) returns (a: Answer, next: Option<Pid>, ghost x: Moments)
      requires Valid() && pid > 1
      modifies `t
      ensures Valid() && old(t) <= x.child <= x.parent <= x.again == t
      ensures if next.Some? then pid != root && Passes(h, pid, x) && next.value == ParentAt(h, pid, x.child) > 1
              else a == Trace(h, root, rootStart, pid, [x]) && !a.TooDeep?
    {
      next, a := None, Changed;
      var child := ReadProcess(pid);
      x := Moments(t, t, t);
      if child.None? {
        return;
      }
      if pid == root {
        a := Member(child.value.start == rootStart);
        return;
      }
      if child.value.parent <= 1 {
        a := Member(false);
        return;
      }
      var parent := ReadProcess(child.value.parent);
      x := x.(parent := t, again := t);
      if parent.None? || parent.value.start > child.value.start {
        return;
      }
      var again := ReadProcess(pid);
      x := x.(again := t);
      if again == child {
        next := Some(child.value.parent);
      }
    }

    /** beneath: up to three traces while the tree keeps changing. */
    method IsBeneath(pid: Pid) returns (a: Answer, ghost m: seq<Moments>)
      requires Valid() && pid > 1
      modifies `t
      ensures Valid() && t >= old(t) && InTurn(m, t) && (m != [] ==> old(t) <= m[0].child)
      ensures a == Trace(h, root, rootStart, pid, m)
    {
      a, m := TraceAncestry(pid);
      for retry := 1 to 3
        invariant Valid() && t >= old(t) && InTurn(m, t) && (m != [] ==> old(t) <= m[0].child)
        invariant a == Trace(h, root, rootStart, pid, m)
      {
        if !a.Changed? {
          return;
        }
        a, m := TraceAncestry(pid);
      }
    }

    /** The PIDs of /proc, in ascending order: each lookup finds the next one that exists at its own
        moment. */
    method ReadDirectory() returns (pids: seq<Pid>, ghost a: nat)
      requires Valid()
      modifies `t
      ensures Valid() && old(t) <= a <= t && Listing(h, Found(pids), a, t)
      ensures forall p :: p in pids ==> p > 1
    {
      Wait();
      a := t;
      pids := [];
      var cursor: Pid, done := 0, false;
      ghost var unseen := AllPids(h);
      while !done
        invariant Valid() && old(t) <= a <= t
        invariant forall p :: p in pids ==> 1 < p < cursor
        invariant forall p: Pid :: p < cursor || done ==> LookedUp(h, Found(pids), a, t, p)
        invariant forall p :: p in AllPids(h) && p >= cursor ==> p in unseen
        decreases !done, unseen
      {
        ghost var before := t;
        Wait();
        HistorySound(h, root, t);
        var next := NextPid(h[t].procs.Keys, cursor);
        LookupsStay(h, pids, a, before, t, cursor, next);
        pids := More(pids, next);
        if next.None? {
          done := true;
        } else {
          assert SoundAt(h[t], next.value);
          assert next.value in AllPids(h);
          unseen := set p | p in unseen && p > next.value;
          cursor := next.value + 1;
        }
      }
    }

    /** processList: every PID found is read twice. The batch holds what was read, and one process that is
        gone by then spoils it: only so it is all that the enumeration found. */
    method ListProcesses() returns (ok: bool, batch: map<Pid, Identity>, ghost a: nat, ghost e: nat)
      requires Valid()
      modifies `t
      ensures Valid() && old(t) <= a <= e <= t
      ensures ok ==> Listing(h, batch.Keys, a, e) && forall p :: p in batch ==> p > 1 && WasRead(h, e, t, p, batch[p])
    {
      var entries;
      entries, a := ReadDirectory();
      e, batch := t, map[];
      for n := 0 to |entries|
        invariant Valid() && a <= e <= t && batch.Keys == Found(entries[..n])
        invariant forall p :: p in batch ==> WasRead(h, e, t, p, batch[p])
      {
        var identity := ReadProcess(entries[n]);
        ghost var at := t;
        var threads := ReadProcess(entries[n]);
        if identity.None? || threads.None? {
          return false, map[], a, e;
        }
        assert Read(h[at], entries[n]) == identity;
        batch := batch[entries[n] := identity.value];
      }
      assert entries[..|entries|] == entries;
      ok := true;
    }

    /** One sweep over an enumeration: the processes found outside, and whether some are unknown.
        Signals sent to outsiders only make them exit sooner or later, as they may anyway. */
    method Sweep(pids: set<Pid>, ghost a: nat, ghost e: nat) returns (ok: bool, remaining: nat, uncertain: bool, ghost m: map<Pid, seq<Moments>>)
      requires Valid() && e <= t && Listing(h, pids, a, e) && forall p :: p in pids ==> p > 1
      modifies `t
      ensures Valid() && t >= old(t)
      ensures ok && remaining == 0 && !uncertain ==> Certified(h, root, rootStart, a, e, t, m)
    {
      remaining, uncertain, m := 0, false, map[];
      var rest := pids;
      while rest != {}
        invariant Valid() && e <= t && t >= old(t) && rest <= pids
        invariant remaining == 0 && !uncertain ==> m.Keys == pids - rest && forall p :: p in m ==> Certifies(h, root, rootStart, e, t, p, m[p])
      {
        var pid :| pid in rest;
        rest := rest - {pid};
        var answer;
        ghost var x;
        answer, x := IsBeneath(pid);
        if answer.TooDeep? {
          return false, remaining, uncertain, m;
        } else if answer.Changed? {
          uncertain := true;
        } else if !answer.resident {
          remaining := remaining + 1;
        } else {
          m := m[pid := x];
        }
      }
      assert pids - rest == pids;
      ok := true;
    }

    /** stopTaskProcesses: it succeeds only after an enumeration all of which was then traced to the
        resident root, and runnerReaped says whether its own child has been waited for. CertifiedExact
        says when nothing outside the resident tree was left at the end of the enumeration. */
    method StopTaskProcesses() returns (ok: bool, ghost a: nat, ghost e: nat, ghost m: map<Pid, seq<Moments>>)
      requires Valid()
      modifies `t
      ensures Valid() && t >= old(t)
      ensures ok ==> old(t) <= a <= e <= t && Certified(h, root, rootStart, a, e, t, m)
      ensures ok && NoReuse(h, a, t) && Calm(h, root, a, e) ==> AllResident(h[e], root)
    {
      var rounds: nat := *;
      a, e, m := t, t, map[];
      while rounds > 0
        invariant Valid() && t >= old(t)
      {
        rounds := rounds - 1;
        var expired: bool := *;
        if expired {
          return false, a, e, m;
        }
        var listed, batch;
        listed, batch, a, e := ListProcesses();
        if listed {
          var swept, remaining, uncertain;
          swept, remaining, uncertain, m := Sweep(batch.Keys, a, e);
          if !swept {
            return false, a, e, m;
          }
          var runnerReaped: bool := *;
          if remaining == 0 && !uncertain && runnerReaped {
            if NoReuse(h, a, t) && Calm(h, root, a, e) {
              CertifiedWithoutReuse(h, root, a, e, t, m);
            }
            return true, a, e, m;
          }
        }
        Wait();
      }
      ok := false;
    }
  }

  /** A trace begun after the enumeration found the PID resident. */
  predicate Certifies(h: seq<World>, root: Pid, rootStart: nat, e: nat, last: nat, p: Pid, m: seq<Moments>) {
    && last < |h| && InTurn(m, last) && m != [] && e <= m[0].child
    && Trace(h, root, rootStart, p, m) == Member(true)
  }

  /** So did one for each process of an enumeration that ran from moment a to e. */
  ghost predicate Certified(h: seq<World>, root: Pid, rootStart: nat, a: nat, e: nat, last: nat, m: map<Pid, seq<Moments>>) {
    && e <= last < |h| && Listing(h, m.Keys, a, e)
    && forall p :: p in m ==> Certifies(h, root, rootStart, e, last, p, m[p])
  }

  /** The changes of membership between the enumeration and the answer for one PID. */
  ghost function FlipsSince(h: seq<World>, root: Pid, e: nat, p: Pid, m: seq<Moments>): nat
    requires History(h, root) && InTurn(m, |h| - 1) && m != [] && e <= m[0].child
  {
    (if Flips(h, root, p, e, m[0].child) then 1 else 0) + FlipCount(h, root, p, m)
  }

  /** What was listed and still exists at the end of the enumeration is resident if and only if an even
      number of takeovers of its PID's trace changed membership before the answer; and if the enumeration
      was calm, that decides whether any outsider was left at all. */
  lemma {:induction false} CertifiedExact(h: seq<World>, root: Pid, a: nat, e: nat, last: nat, m: map<Pid, seq<Moments>>)
    requires History(h, root) && Certified(h, root, h[0].procs[root].start, a, e, last, m)
    ensures forall p :: p in m ==> InTurn(m[p], |h| - 1) && m[p] != [] && e <= m[p][0].child
    ensures forall p :: p in m && p in h[e].procs ==> (Outsider(h[e], root, p) <==> FlipsSince(h, root, e, p, m[p]) % 2 == 1)
    ensures Calm(h, root, a, e) ==>
      (AllResident(h[e], root) <==> forall p :: p in m && p in h[e].procs ==> FlipsSince(h, root, e, p, m[p]) % 2 == 0)
  {
    HistorySound(h, root, e);
    forall p | p in m
      ensures InTurn(m[p], |h| - 1) && m[p] != [] && e <= m[p][0].child
      ensures p in h[e].procs ==> (Outsider(h[e], root, p) <==> FlipsSince(h, root, e, p, m[p]) % 2 == 1)
    {
      if p in h[e].procs {
        CertifiesExact(h, root, e, last, p, m[p]);
      }
    }
    if Calm(h, root, a, e) && forall p :: p in m && p in h[e].procs ==> FlipsSince(h, root, e, p, m[p]) % 2 == 0 {
      forall p | p in h[e].procs ensures Beneath(h[e], root, p) {
        NothingMissed(h, root, m.Keys, a, e, p);
      }
    }
  }

  lemma {:induction false} CertifiesExact(h: seq<World>, root: Pid, e: nat, last: nat, p: Pid, m: seq<Moments>)
    requires History(h, root) && e < |h| && p in h[e].procs && Certifies(h, root, h[0].procs[root].start, e, last, p, m)
    ensures InTurn(m, |h| - 1) && Sound(h[e], root)
    ensures FlipsSince(h, root, e, p, m) % 2 == 0 <==> Beneath(h[e], root, p)
  {
    HistorySound(h, root, e);
    TraceExact(h, root, p, m);
  }

  /** A calm enumeration and no PID reuse until the last answer leave no outsider. */
  lemma {:induction false} CertifiedWithoutReuse(h: seq<World>, root: Pid, a: nat, e: nat, last: nat, m: map<Pid, seq<Moments>>)
    requires History(h, root) && Certified(h, root, h[0].procs[root].start, a, e, last, m) && NoReuse(h, e, last) && Calm(h, root, a, e)
    ensures AllResident(h[e], root)
  {
    HistorySound(h, root, e);
    forall p | p in m && p in h[e].procs ensures Beneath(h[e], root, p) {
      assert Certifies(h, root, h[0].procs[root].start, e, last, p, m[p]);
      ResidentWithoutReuse(h, root, e, last, p, m[p]);
    }
    forall p | p in h[e].procs ensures Beneath(h[e], root, p) {
      NothingMissed(h, root, m.Keys, a, e, p);
    }
  }

  lemma {:induction false} ResidentWithoutReuse(h: seq<World>, root: Pid, e: nat, last: nat, p: Pid, m: seq<Moments>)
    requires History(h, root) && e < |h| && p in h[e].procs && NoReuse(h, e, last)
    requires Certifies(h, root, h[0].procs[root].start, e, last, p, m)
    ensures Sound(h[e], root) && Beneath(h[e], root, p)
  {
    CertifiesExact(h, root, e, last, p, m);
    NoReuseNoFlip(h, root, e, last, p, e, m[0].child);
    NoReuseNoFlips(h, root, e, last, p, m);
  }

  lemma {:induction false} RootStays(h: seq<World>, root: Pid, i: nat)
    requires History(h, root) && i < |h|
    ensures root in h[0].procs && root in h[i].procs && h[0].procs[root].start == h[i].procs[root].start
  {
    HistorySound(h, root, i);
    if i > 0 {
      RootStays(h, root, i - 1);
      assert Next(h[i - 1], h[i - 1 + 1], root);
      StepFacts(h[i - 1], h[i], root, root);
    }
  }
}
