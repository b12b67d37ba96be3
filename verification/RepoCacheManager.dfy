/** The manager's methods, each made of its critical sections, with everybody else's in between. */
module RepoCacheManager {
  import opened Common
  import opened RepoCache
  import opened RepoCacheInvariant
  import opened RepoCacheRuns
  import Counting

  /** A step of this actor itself, or a prune under the lock it holds. */
  predicate Mine(c: Cache, s: Step, me: Holder) {
    match s
    case Enter(t, _) => me == Caller(t)
    case Create(t, _, _) => me == Caller(t)
    case Join(t) => me == Caller(t)
    case Start(t, _) => me == Caller(t)
    case Leave(t, _) => me == Caller(t)
    case LockCaller(t) => me == Caller(t)
    case Choose(t, _) => me == Caller(t)
    case Discard(t, _, _) => me == Caller(t)
    case Publish(t, _) => me == Caller(t)
    case Abandon(t, _, _) => me == Caller(t)
    case Pin(t, _) => me == Caller(t)
    case UnlockCaller(t) => me == Caller(t)
    case Touch(t, _) => me == Caller(t)
    case Exit(t) => me == Caller(t)
    case Cancel(_) => false
    case LockRefresh(f) => me == Refresher(f)
    case UnlockRefresh(f, _) => me == Refresher(f)
    case EndRefresh(f) => me == Refresher(f)
    case Close(x) => me == Closer(x)
    case LockCloser(x) => me == Closer(x)
    case UnlockCloser(x) => me == Closer(x)
    case Prune(e, _, _, _) => e in c.heap && c.heap[e].lock == Some(me)
    case Evict(_, _) => false
    case Poison => false
  }

  /** What the others leave alone: an actor's own progress, and the lock it holds. */
  predicate Kept(c: Cache, d: Cache, me: Holder) {
    && match me
       case Caller(t) => (t in c.threads <==> t in d.threads) && (t in c.threads ==> d.threads[t] == c.threads[t]) && OpensNone(c, d, t)
       case Refresher(f) => f in c.flights ==> f in d.flights && SameRefresh(c.flights[f], d.flights[f])
       case Closer(x) => x in c.snaps ==> x in d.snaps && d.snaps[x] == c.snaps[x]
  }

  /** No snapshot is opened for the call. */
  predicate OpensNone(c: Cache, d: Cache, t: nat) {
    forall y :: y in d.snaps && OpenFor(d.snaps[y], t) ==> y in c.snaps && OpenFor(c.snaps[y], t)
  }

  predicate OpenFor(x: Snap, t: nat) {
    x.open && x.owner == t
  }

  /** Of all the snapshots the call ever pinned, only this one may be open. */
  predicate OnlyOpen(c: Cache, t: nat, x: Option<nat>) {
    forall y :: y in c.snaps && OpenFor(c.snaps[y], t) ==> x == Some(y)
  }

  lemma {:induction false} UnusedOpensNone(c: Cache, t: nat)
    requires Inv(c) && t !in c.used
    ensures OnlyOpen(c, t, None) && t !in c.threads
  {
    forall y | y in c.snaps ensures !OpenFor(c.snaps[y], t) {
      assert SnapOk(c, y);
    }
    assert t in c.threads ==> WaitLink(c, t);
  }

  predicate SameRefresh(a: Flight, b: Flight) {
    a.entry == b.entry && a.done == b.done && a.updated == b.updated
  }

  predicate LockKept(c: Cache, d: Cache, me: Holder, e: nat) {
    e in c.heap ==>
      && e in d.heap && d.heap[e].key == c.heap[e].key
      && (c.heap[e].lock == Some(me) <==> d.heap[e].lock == Some(me))
      && (c.heap[e].lock == Some(me) ==> d.heap[e].valid == c.heap[e].valid)
  }

  lemma {:induction false} CallerOthersKeep(c: Cache, s: Step, d: Cache, me: Holder, e: nat)
    requires CallerTakes(c, s, d) && !Mine(c, s, me)
    ensures Kept(c, d, me) && LockKept(c, d, me, e)
  {
  }

  lemma {:induction false} LockOthersKeep(c: Cache, s: Step, d: Cache, me: Holder, e: nat)
    requires LockTakes(c, s, d) && !Mine(c, s, me)
    ensures Kept(c, d, me) && LockKept(c, d, me, e)
  {
  }

  lemma {:induction false} CheckoutOthersKeep(c: Cache, s: Step, d: Cache, me: Holder, e: nat)
    requires CheckoutTakes(c, s, d) && !Mine(c, s, me)
    ensures Kept(c, d, me) && LockKept(c, d, me, e)
  {
    match s
    case Abandon(t, r, left) => AbandonOthersKeep(c, t, r, left, me, e);
    case Discard(t, r, how) => DiscardOthersKeep(c, t, r, how, me, e);
    case _ =>
  }

  lemma {:induction false} AbandonOthersKeep(c: Cache, t: nat, r: Revision, left: Option<bool>, me: Holder, e: nat)
    requires CanAbandon(c, t, r, left)
    ensures Kept(c, DoAbandon(c, t, r, left), me) && LockKept(c, DoAbandon(c, t, r, left), me, e)
  {
  }

  lemma {:induction false} DiscardOthersKeep(c: Cache, t: nat, r: Revision, how: Removal, me: Holder, e: nat)
    requires CanDiscard(c, t, r, how)
    ensures Kept(c, DoDiscard(c, t, r, how), me) && LockKept(c, DoDiscard(c, t, r, how), me, e)
  {
  }

  lemma {:induction false} RestOthersKeep(c: Cache, s: Step, d: Cache, me: Holder, e: nat)
    requires RestTakes(c, s, d) && !Mine(c, s, me)
    ensures Kept(c, d, me) && LockKept(c, d, me, e)
  {
    match s
    case Prune(g, r, how, recordToo) => PruneOthersKeep(c, g, r, how, recordToo, me, e);
    case Evict(g, how) => EvictOthersKeep(c, g, how, me, e);
    case Close(x) => CloseOthersKeep(c, x, me, e);
    case _ =>
  }

  lemma {:induction false} PruneOthersKeep(c: Cache, g: nat, r: Revision, how: Removal, recordToo: bool, me: Holder, e: nat)
    requires CanPrune(c, g, r, how, recordToo)
    ensures Kept(c, DoPrune(c, g, r, how, recordToo), me) && LockKept(c, DoPrune(c, g, r, how, recordToo), me, e)
  {
  }

  lemma {:induction false} EvictOthersKeep(c: Cache, g: nat, how: Removal, me: Holder, e: nat)
    requires CanEvict(c, g, how)
    ensures Kept(c, DoEvict(c, g, how), me) && LockKept(c, DoEvict(c, g, how), me, e)
  {
  }

  lemma {:induction false} CloseOthersKeep(c: Cache, x: nat, me: Holder, e: nat)
    requires CanClose(c, x) && me != Closer(x)
    ensures Kept(c, DoClose(c, x), me) && LockKept(c, DoClose(c, x), me, e)
  {
  }

  lemma {:induction false} OthersKeep(c: Cache, s: Step, d: Cache, me: Holder, e: nat)
    requires Takes(c, s, d) && !Mine(c, s, me)
    ensures Kept(c, d, me) && LockKept(c, d, me, e)
  {
    if CallerTakes(c, s, d) {
      CallerOthersKeep(c, s, d, me, e);
    } else if LockTakes(c, s, d) {
      LockOthersKeep(c, s, d, me, e);
    } else if CheckoutTakes(c, s, d) {
      CheckoutOthersKeep(c, s, d, me, e);
    } else {
      RestOthersKeep(c, s, d, me, e);
    }
  }

  method FreshId(used: set<nat>) returns (n: nat)
    ensures n !in used
  {
    n := 0;
    var rest := used;
    while rest != {}
      invariant forall k :: k in used ==> k in rest || k < n
    {
      var k :| k in rest;
      if n <= k {
        n := k + 1;
      }
      rest := rest - {k};
    }
  }

  /** What pruning one entry may change: unpinned checkouts that are not its current one. */
  predicate PruneEffect(c: Cache, d: Cache, e: nat)
    requires e in c.heap
  {
    && d == c.(heap := d.heap, dirs := d.dirs) && e in d.heap
    && d.heap == c.heap[e := c.heap[e].(checkouts := d.heap[e].checkouts)]
    && (forall r :: r in d.heap[e].checkouts ==> r in c.heap[e].checkouts && d.heap[e].checkouts[r] == c.heap[e].checkouts[r])
    && (forall r :: r in c.heap[e].checkouts && (r == c.heap[e].current || !Unpinned(c.heap[e], r)) ==> r in d.heap[e].checkouts)
    && (forall p :: p in d.dirs ==> p in c.dirs)
    && (forall p :: p in c.dirs && !MayPrune(c, e, p) ==> p in d.dirs && d.dirs[p] == c.dirs[p])
  }

  predicate MayPrune(c: Cache, e: nat, p: (Key, Revision))
    requires e in c.heap
  {
    && !c.unproven && Live(c, e) && p.0 == c.heap[e].key && p.1 in c.heap[e].checkouts
    && p.1 != c.heap[e].current && Unpinned(c.heap[e], p.1)
  }

  lemma {:induction false} PruneMore(c: Cache, b: Cache, e: nat, r: Revision, how: Removal, recordToo: bool)
    requires e in c.heap && PruneEffect(c, b, e) && CanPrune(b, e, r, how, recordToo)
    ensures PruneEffect(c, DoPrune(b, e, r, how, recordToo), e)
  {
  }

  function LastUse(heap: map<nat, Entry>): nat -> nat {
    e => if e in heap then heap[e].lastUsed else 0
  }

  /** Oldest use first. */
  predicate ByUse(use: nat -> nat, s: seq<nat>) {
    forall i, j :: 0 <= i < j < |s| ==> use(s[i]) <= use(s[j])
  }

  predicate Distinct(s: seq<nat>) {
    forall i, j :: 0 <= i < j < |s| ==> s[i] != s[j]
  }

  function InsertByUse(use: nat -> nat, s: seq<nat>, e: nat): seq<nat> {
    if s == [] || use(e) <= use(s[0]) then [e] + s else [s[0]] + InsertByUse(use, s[1..], e)
  }

  lemma {:induction false} InsertMembers(use: nat -> nat, s: seq<nat>, e: nat)
    ensures forall g :: g in InsertByUse(use, s, e) <==> g == e || g in s
    ensures Distinct(s) && e !in s ==> Distinct(InsertByUse(use, s, e))
  {
    if s != [] && use(e) > use(s[0]) {
      InsertMembers(use, s[1..], e);
      assert s == [s[0]] + s[1..];
      var t := InsertByUse(use, s[1..], e);
      if Distinct(s) && e !in s {
        assert s[0] !in s[1..];
        assert s[0] !in t;
      }
    }
  }

  lemma {:induction false} InsertKeepsOrder(use: nat -> nat, s: seq<nat>, e: nat)
    requires ByUse(use, s)
    ensures ByUse(use, InsertByUse(use, s, e))
  {
    if s != [] && use(e) > use(s[0]) {
      InsertKeepsOrder(use, s[1..], e);
      InsertMembers(use, s[1..], e);
      var t := InsertByUse(use, s[1..], e);
      forall j | 0 <= j < |t| ensures use(s[0]) <= use(t[j]) {
        assert t[j] in t;
      }
    }
  }

  predicate Idle(c: Cache, e: nat) {
    Live(c, e) && c.heap[e].active == 0
  }

  /** What making room may change: idle entries go, the least recently used first, and whatever is
      in use keeps its entry and its directories. */
  ghost predicate ReclaimEffect(c: Cache, d: Cache, gone: seq<nat>) {
    && d == c.(dirs := d.dirs, table := d.table)
    && (forall i :: 0 <= i < |gone| ==> Idle(c, gone[i]))
    && (forall e :: Live(c, e) && e !in gone ==> Live(d, e))
    && (forall e, r :: Live(c, e) && c.heap[e].active > 0 ==>
          ((c.heap[e].key, r) in d.dirs <==> (c.heap[e].key, r) in c.dirs))
    && (forall e, r :: Live(c, e) && c.heap[e].active > 0 && (c.heap[e].key, r) in d.dirs && (c.heap[e].key, r) in c.dirs ==>
          d.dirs[(c.heap[e].key, r)] == c.dirs[(c.heap[e].key, r)])
  }

  lemma {:induction false} ReclaimNothing(c: Cache)
    ensures ReclaimEffect(c, c, [])
  {
  }

  lemma {:induction false} ReclaimMore(c: Cache, b: Cache, gone: seq<nat>, e: nat, how: Removal)
    requires ReclaimEffect(c, b, gone) && Idle(c, e) && e !in gone && !b.unproven
    ensures CanEvict(b, e, how)
    ensures ReclaimEffect(c, DoEvict(b, e, how), if how.Removed? then gone + [e] else gone)
  {
    var d := DoEvict(b, e, how);
    forall g | Live(c, g) && c.heap[g].active > 0 ensures c.heap[g].key != c.heap[e].key {
    }
  }

  lemma {:induction false} TableNames(h: seq<Cache>, i: nat)
    requires Run(h) && i < |h|
    ensures forall k :: k in h[i].table ==> h[i].table[k] in h[i].heap && h[i].heap[h[i].table[k]].key == k
  {
    RunInv(h, i);
    forall k | k in h[i].table ensures h[i].table[k] in h[i].heap && h[i].heap[h[i].table[k]].key == k {
      assert TableOk(h[i], k);
    }
  }

  class Manager {
    var c: Cache
    ghost var h: seq<Cache>

    ghost predicate Valid()
      reads this
    {
      Run(h) && h[|h| - 1] == c
    }

    twostate predicate Later()
      reads this
    {
      Valid() && old(h) <= h
    }

    constructor (c: Cache)
      requires Initial(c)
      ensures Valid() && this.c == c && h == [c]
    {
      this.c, h := c, [c];
    }

    method Become(d: Cache)
      requires Valid() && Next(c, d)
      modifies this
      ensures Valid() && c == d && h == old(h) + [d]
    {
      c := d;
      h := h + [d];
      forall i | 0 <= i < |h| - 1 ensures StepAt(h, i) {
        assert i < |old(h)| - 1 ==> StepAt(old(h), i);
      }
    }

    method CallerSection(s: Step, d: Cache)
      requires Valid() && CallerTakes(c, s, d)
      modifies this
      ensures Valid() && c == d && h == old(h) + [d]
    {
      assert Takes(c, s, d);
      Become(d);
    }

    method LockSection(s: Step, d: Cache)
      requires Valid() && LockTakes(c, s, d)
      modifies this
      ensures Valid() && c == d && h == old(h) + [d]
    {
      assert Takes(c, s, d);
      Become(d);
    }

    method CheckoutSection(s: Step, d: Cache)
      requires Valid() && CheckoutTakes(c, s, d)
      modifies this
      ensures Valid() && c == d && h == old(h) + [d]
    {
      assert Takes(c, s, d);
      Become(d);
    }

    method RestSection(s: Step, d: Cache)
      requires Valid() && RestTakes(c, s, d)
      modifies this
      ensures Valid() && c == d && h == old(h) + [d]
    {
      assert Takes(c, s, d);
      Become(d);
    }

    /** Any number of other actors' steps. */
    method Others(me: Holder, ghost e: nat)
      requires Valid()
      modifies this
      ensures Later() && Inv(c) && Kept(old(c), c, me) && LockKept(old(c), c, me, e)
    {
      var n: nat := *;
      while n > 0
        invariant Later() && Kept(old(c), c, me) && LockKept(old(c), c, me, e)
      {
        var s: Step, d: Cache := *, *;
        if Takes(c, s, d) && !Mine(c, s, me) {
          OthersKeep(c, s, d, me, e);
          Become(d);
        }
        n := n - 1;
      }
      RunInv(h, |h| - 1);
    }

    /** pruneCheckouts, with both locks held: nothing is removed for an evicted entry, nor anything
        pinned or current. A removal may fail, completely or halfway. */
    method PruneCheckouts(e: nat)
      requires Valid() && e in c.heap && c.heap[e].lock.Some?
      modifies this
      ensures Later() && PruneEffect(old(c), c, e)
    {
      if c.unproven || c.heap[e].key !in c.table || c.table[c.heap[e].key] != e {
        return;
      }
      var rest := c.heap[e].checkouts.Keys;
      while rest != {}
        invariant Later() && PruneEffect(old(c), c, e)
      {
        var r :| r in rest;
        rest := rest - {r};
        var tried: bool, how: Removal, recordToo: bool := *, *, *;
        if r in c.heap[e].checkouts && r != c.heap[e].current && c.heap[e].checkouts[r].pins == 0 && tried {
          PruneMore(old(c), c, e, r, how, recordToo);
          RestSection(Prune(e, r, how, recordToo), DoPrune(c, e, r, how, recordToo));
        }
      }
    }

    /** The call t of snapshot stands at phase on the entry e; of its own snapshots at most x is open. */
    ghost predicate Inside(t: nat, e: nat, phase: Phase, x: Option<nat>)
      reads this
    {
      && Valid() && Inv(c) && OnlyOpen(c, t, x) && t in c.threads && c.threads[t] == Thread(e, phase) && e in c.heap
      && (phase.Holding? || phase.Chosen? ==> c.heap[e].lock == Some(Caller(t)) && c.heap[e].valid)
    }

    /** Becoming a waiter: the running refresh is joined, or a new one is started. */
    method JoinOrStart(t: nat, ghost e: nat)
      requires Inside(t, e, Entered, None) && (c.heap[e].flight.Some? ==> CanJoin(c, t))
      modifies this
      ensures Later() && OnlyOpen(c, t, None) && t in c.threads && c.threads[t].entry == e && e in c.heap
      ensures c.threads[t].phase.Waiting? && WaitsLive(c, t, c.threads[t].phase.flight)
    {
      assert FlightLink(c, e);
      if Ent(c, t).flight.None? {
        var f := FreshId(c.flights.Keys);
        CallerSection(Start(t, f), DoStart(c, t, f));
      } else {
        CallerSection(Join(t), DoJoin(c, t));
      }
    }

    /** A refresh that the call joined while it ran has succeeded. */
    ghost predicate SucceededFor(t: nat)
      requires |h| > 0
      reads this
    {
      exists f :: JoinedLive(h, |h| - 1, t, f) && f in c.flights && c.flights[f].done == Some(true)
    }

    /** awaitRefresh: a cancelled refresh is waited out, a running one joined, otherwise one started. It
        succeeds only with a refresh that this call joined while it ran and that then succeeded. */
    method AwaitRefresh(t: nat, ghost e: nat) returns (ok: bool)
      requires Inside(t, e, Entered, None)
      modifies this
      ensures Later()
      ensures if ok then Inside(t, e, Refreshed, None) else Inside(t, e, Entered, None) || Inside(t, e, Leaving, None)
      ensures ok ==> SucceededFor(t)
    {
      var tries: nat := *;
      while tries > 0
        invariant Later() && Inside(t, e, Entered, None)
      {
        tries := tries - 1;
        Others(Caller(t), e);
        var cancelled: bool := *;
        if cancelled {
          return false;
        }
        assert FlightLink(c, e);
        if Ent(c, t).flight.None? || !c.flights[Ent(c, t).flight.value].cancelled {
          ok := WaitForRefresh(t, e);
          return;
        }
      }
      ok := false;
    }

    method WaitForRefresh(t: nat, ghost e: nat) returns (ok: bool)
      requires Inside(t, e, Entered, None) && (c.heap[e].flight.Some? ==> CanJoin(c, t))
      modifies this
      ensures Later() && Inside(t, e, if ok then Refreshed else Leaving, None)
      ensures ok ==> SucceededFor(t)
    {
      JoinOrStart(t, e);
      ok := FinishWaiting(t, e);
      if ok {
        SuccessJoinedRunningRefresh(h, |h| - 1, t);
      }
    }

    /** Waiting ends with the refresh or with the caller's own context. */
    method FinishWaiting(t: nat, ghost e: nat) returns (ok: bool)
      requires Valid() && OnlyOpen(c, t, None) && t in c.threads && c.threads[t].entry == e && c.threads[t].phase.Waiting? && e in c.heap
      modifies this
      ensures Later() && Inside(t, e, if ok then Refreshed else Leaving, None)
      ensures ok ==> var f := old(c).threads[t].phase.flight; f in c.flights && c.flights[f].done == Some(true)
    {
      Others(Caller(t), e);
      var f := c.threads[t].phase.flight;
      assert WaitLink(c, t) && FlightOk(c, f);
      Counting.CountPositive(c.threads, t, WaitingOn(f));
      var ended: bool := *;
      ok := ended && c.flights[f].done == Some(true);
      CallerSection(Leave(t, ok), DoLeave(c, t, ok));
      RunInv(h, |h| - 1);
    }

    /** lockEntry for a caller: the lock is only ever tried. */
    method LockEntry(t: nat, ghost e: nat) returns (ok: bool)
      requires Inside(t, e, Refreshed, None)
      modifies this
      ensures Later() && Inv(c) && OnlyOpen(c, t, None) && t in c.threads && e in c.heap
      ensures if ok then c.threads[t] == Thread(e, Holding) && c.heap[e].lock == Some(Caller(t)) else Inside(t, e, Refreshed, None)
    {
      var tries: nat := *;
      while tries > 0
        invariant Later() && Inside(t, e, Refreshed, None)
      {
        tries := tries - 1;
        Others(Caller(t), e);
        if Ent(c, t).lock.None? {
          LockSection(LockCaller(t), DoLockCaller(c, t));
          RunInv(h, |h| - 1);
          return true;
        }
      }
      ok := false;
    }

    /** The end of checkout: the chosen directory is pinned and stale ones are pruned. */
    method PinChosen(t: nat, ghost e: nat, ghost r: Revision) returns (x: nat)
      requires Inside(t, e, Chosen(r), None)
      modifies this
      ensures Later() && Inside(t, e, Holding, Some(x))
      ensures x in c.snaps && c.snaps[x].open && c.snaps[x].entry == e && c.snaps[x].revision == r
    {
      Others(Caller(t), e);
      x := PinNow(t, e, r);
      PruneCheckouts(c.threads[t].entry);
      RunInv(h, |h| - 1);
    }

    method PinNow(t: nat, ghost e: nat, ghost r: Revision) returns (x: nat)
      requires Inside(t, e, Chosen(r), None)
      modifies this
      ensures Later() && Inside(t, e, Holding, Some(x))
      ensures x in c.snaps && c.snaps[x].open && c.snaps[x].entry == e && c.snaps[x].revision == r
    {
      assert ChosenOk(c, t) && LockLink(c, t);
      x := FreshId(c.snaps.Keys);
      CheckoutSection(Pin(t, x), DoPin(c, t, x));
      RunInv(h, |h| - 1);
    }

    /** checkout, when the revision's directory was verified before or its checksum still matches. */
    method Reuse(t: nat, ghost e: nat, r: Revision) returns (x: nat)
      requires Inside(t, e, Holding, None) && CanChoose(c, t, r)
      modifies this
      ensures Later() && Inside(t, e, Holding, Some(x))
      ensures x in c.snaps && c.snaps[x].open && c.snaps[x].entry == e && c.snaps[x].revision == r
    {
      CheckoutSection(Choose(t, r), DoChoose(c, t, r));
      RunInv(h, |h| - 1);
      x := PinChosen(t, e, r);
    }

    /** Removing an unverified directory that is in the way. */
    method ClearPlace(t: nat, ghost e: nat, r: Revision) returns (ok: bool)
      requires Inside(t, e, Holding, None) && (Place(c, t, r) in c.dirs ==> !Verified(Ent(c, t), r))
      modifies this
      ensures Later() && Inside(t, e, Holding, None)
    {
      ok := true;
      if Place(c, t, r) in c.dirs {
        var removable: bool, how: Removal := *, *;
        ok := removable && !c.unproven && how.Removed?;
        if removable && !c.unproven {
          CheckoutSection(Discard(t, r, how), DoDiscard(c, t, r, how));
          RunInv(h, |h| - 1);
        }
      }
    }

    /** A checkout fails, leaving what it could not take away again. */
    method GiveUp(t: nat, ghost e: nat, r: Revision, left: Option<bool>)
      requires Inside(t, e, Holding, None) && CanAbandon(c, t, r, left)
      modifies this
      ensures Later() && Inside(t, e, Holding, None)
    {
      CheckoutSection(Abandon(t, r, left), DoAbandon(c, t, r, left));
      RunInv(h, |h| - 1);
    }

    /** checkout, when the directory has to be built: staged, published by renaming, and pinned. What
        cannot be completed after the renaming is removed again, as far as that works. */
    method Rebuild(t: nat, ghost e: nat, r: Revision) returns (x: Option<nat>)
      requires Inside(t, e, Holding, None)
      modifies this
      ensures Later() && Inside(t, e, Holding, x)
      ensures x.Some? ==> x.value in c.snaps && c.snaps[x.value].open && c.snaps[x.value].entry == e && c.snaps[x.value].revision == r
    {
      Others(Caller(t), e);
      var built: bool, left: Option<bool> := *, *;
      if !built || Place(c, t, r) in c.dirs {
        GiveUp(t, e, r, if Place(c, t, r) in c.dirs then None else left);
        return None;
      }
      CheckoutSection(Publish(t, r), DoPublish(c, t, r));
      RunInv(h, |h| - 1);
      var pinned := PinChosen(t, e, r);
      x := Some(pinned);
    }

    method Checkout(t: nat, ghost e: nat, r: Revision) returns (x: Option<nat>)
      requires Inside(t, e, Holding, None)
      modifies this
      ensures Later() && Inside(t, e, Holding, x)
      ensures x.Some? ==> x.value in c.snaps && c.snaps[x.value].open && c.snaps[x.value].entry == e && c.snaps[x.value].revision == r
    {
      Others(Caller(t), e);
      var intact: bool := *;
      if Place(c, t, r) in c.dirs && (Verified(Ent(c, t), r) || (c.dirs[Place(c, t, r)].whole && intact)) {
        var pinned := Reuse(t, e, r);
        return Some(pinned);
      }
      var cleared := ClearPlace(t, e, r);
      if !cleared {
        GiveUp(t, e, r, None);
        return None;
      }
      x := Rebuild(t, e, r);
    }

    /** The idle entries, ordered by last use. */
    method IdleByUse() returns (s: seq<nat>)
      requires Valid()
      ensures ByUse(LastUse(c.heap), s) && Distinct(s) && forall e :: e in s <==> Idle(c, e)
    {
      TableNames(h, |h| - 1);
      var use := LastUse(c.heap);
      s := [];
      var rest := c.table.Keys;
      while rest != {}
        invariant rest <= c.table.Keys && ByUse(use, s) && Distinct(s)
        invariant forall e :: e in s <==> Idle(c, e) && c.heap[e].key !in rest
      {
        var k :| k in rest;
        var e := c.table[k];
        rest := rest - {k};
        if c.heap[e].active == 0 {
          InsertKeepsOrder(use, s, e);
          InsertMembers(use, s, e);
          s := InsertByUse(use, s, e);
        }
      }
    }

    /** Removing one idle entry with everything under its key, which may fail, also halfway. */
    method RemoveIdle(e: nat, ghost start: Cache, ghost gone: seq<nat>) returns (removed: bool)
      requires Valid() && ReclaimEffect(start, c, gone) && Idle(start, e) && e !in gone && !c.unproven
      modifies this
      ensures Later() && c.unproven == old(c).unproven && ReclaimEffect(start, c, if removed then gone + [e] else gone)
    {
      var damaged: bool;
      removed, damaged := *, *;
      if removed || damaged {
        var how := if removed then Removed else Partly;
        ReclaimMore(start, c, gone, e, how);
        RestSection(Evict(e, how), DoEvict(c, e, how));
      }
    }

    /** reclaimSpaceLocked: while the file system is full, the least recently used idle entry goes. */
    method ReclaimSpaceLocked() returns (ok: bool, ghost gone: seq<nat>)
      requires Valid()
      modifies this
      ensures Later() && ReclaimEffect(old(c), c, gone)
      ensures ByUse(LastUse(old(c).heap), gone)
      ensures forall g, e :: g in gone && Idle(old(c), e) && e !in gone ==> LastUse(old(c).heap)(g) <= LastUse(old(c).heap)(e)
    {
      var full: bool := *;
      if !c.unproven && full {
        ok, gone := ReclaimIdle();
      } else {
        ok, gone := *, [];
        ok := ok && !c.unproven;
        ReclaimNothing(c);
      }
    }

    method ReclaimIdle() returns (ok: bool, ghost gone: seq<nat>)
      requires Valid() && !c.unproven
      modifies this
      ensures Later() && ReclaimEffect(old(c), c, gone)
      ensures ByUse(LastUse(old(c).heap), gone)
      ensures forall g, e :: g in gone && Idle(old(c), e) && e !in gone ==> LastUse(old(c).heap)(g) <= LastUse(old(c).heap)(e)
    {
      gone := [];
      var idle := IdleByUse();
      ReclaimNothing(c);
      var n := 0;
      while n < |idle|
        invariant n <= |idle| && gone == idle[..n] && !c.unproven
        invariant Later() && ReclaimEffect(old(c), c, gone)
      {
        var enough: bool := *;
        if enough {
          FirstGone(old(c), idle, n);
          return true, gone;
        }
        assert idle[n] in idle && idle[n] !in gone;
        var removed := RemoveIdle(idle[n], old(c), gone);
        if !removed {
          FirstGone(old(c), idle, n);
          return false, gone;
        }
        gone := gone + [idle[n]];
        n := n + 1;
      }
      FirstGone(old(c), idle, n);
      ok := *;
    }

    /** The first section of snapshot: with space reclaimed, the key's entry gains a caller. */
    method EnterKey(t: nat, key: Key) returns (ok: bool, ghost e: nat)
      requires Valid() && t !in c.used
      modifies this
      ensures Later() && OnlyOpen(c, t, None)
      ensures if ok then Inside(t, e, Entered, None) && Live(c, e) && c.heap[e].key == key else t !in c.threads
    {
      RunInv(h, |h| - 1);
      UnusedOpensNone(c, t);
      ghost var gone;
      e := 0;
      var closed: bool := *;
      if closed {
        return false, e;
      }
      ok, gone := ReclaimSpaceLocked();
      if ok {
        if key in c.table {
          e := EnterPresent(t, key);
        } else {
          e := EnterNew(t, key);
        }
      }
    }

    method EnterPresent(t: nat, key: Key) returns (ghost e: nat)
      requires Valid() && t !in c.used && key in c.table
      modifies this
      ensures Later() && Inside(t, e, Entered, None) && Live(c, e) && c.heap[e].key == key
    {
      RunInv(h, |h| - 1);
      UnusedOpensNone(c, t);
      TableNames(h, |h| - 1);
      e := c.table[key];
      CallerSection(Enter(t, key), DoEnter(c, t, key));
      RunInv(h, |h| - 1);
    }

    method EnterNew(t: nat, key: Key) returns (ghost e: nat)
      requires Valid() && t !in c.used && key !in c.table
      modifies this
      ensures Later() && Inside(t, e, Entered, None) && Live(c, e) && c.heap[e].key == key
    {
      RunInv(h, |h| - 1);
      UnusedOpensNone(c, t);
      var fresher := FreshId(c.heap.Keys);
      e := fresher;
      CallerSection(Create(t, key, fresher), DoCreate(c, t, key, fresher));
      RunInv(h, |h| - 1);
    }

    /** The deferred last section of snapshot. */
    method ExitCaller(t: nat, ghost e: nat, ghost phase: Phase, ghost x: Option<nat>)
      requires Inside(t, e, phase, x) && (phase.Entered? || phase.Refreshed? || phase.Leaving?)
      modifies this
      ensures Later() && t !in c.threads && OnlyOpen(c, t, x)
      ensures forall x :: x in old(c).snaps ==> x in c.snaps && c.snaps[x] == old(c).snaps[x]
    {
      CallerHolds(c, t);
      CallerSection(Exit(t), DoExit(c, t));
    }

    /** After checkout: the use is recorded, and a result that cannot be handed over is closed again. */
    method Deliver(t: nat, ghost e: nat, r: Revision, made: Option<nat>, time: nat) returns (x: Option<nat>)
      requires Inside(t, e, Holding, made)
      requires made.Some? ==> made.value in c.snaps && c.snaps[made.value].open && c.snaps[made.value].entry == e && c.snaps[made.value].revision == r
      modifies this
      ensures Later() && Inside(t, e, Holding, x)
      ensures made.Some? ==> made.value in c.snaps && (c.snaps[made.value].open <==> x.Some?)
      ensures x.Some? ==> x == made && x.value in c.snaps && c.snaps[x.value].open && c.snaps[x.value].entry == e && c.snaps[x.value].revision == r
    {
      x := made;
      var exhausted: bool, recorded: bool := *, *;
      if x.Some? && !exhausted {
        LockSection(Touch(t, time), DoTouch(c, t, time));
      }
      if x.Some? && (exhausted || !recorded) {
        Unpin(x.value);
        x := None;
      }
      RunInv(h, |h| - 1);
    }

    /** What snapshot does under the entry's lock. */
    method UseLocked(t: nat, ghost e: nat, r: Revision) returns (x: Option<nat>)
      requires Valid() && Inv(c) && OnlyOpen(c, t, None) && t in c.threads && e in c.heap && c.threads[t] == Thread(e, Holding) && c.heap[e].lock == Some(Caller(t))
      modifies this
      ensures Later() && Inside(t, e, Leaving, x)
      ensures x.Some? ==> x.value in c.snaps && c.snaps[x.value].open && c.snaps[x.value].entry == e && c.snaps[x.value].revision == r
    {
      x := None;
      var resolved: bool, time: nat := *, *;
      if Ent(c, t).valid && resolved {
        x := Checkout(t, e, r);
        x := Deliver(t, e, r, x, time);
      }
      LockSection(UnlockCaller(t), DoUnlockCaller(c, t));
      RunInv(h, |h| - 1);
    }

    /** snapshot, for a call not seen before: the caller is gone again at the end, a result is an open
        snapshot of what it asked for, and no other snapshot that it pinned is left open. */
    method Snapshot(t: nat, key: Key, r: Revision) returns (x: Option<nat>)
      requires Valid() && t !in c.used
      modifies this
      ensures Later() && t !in c.threads && OnlyOpen(c, t, x)
      ensures x.Some? ==> x.value in c.snaps && c.snaps[x.value].open && c.snaps[x.value].revision == r
      ensures x.Some? ==> c.snaps[x.value].entry in c.heap && c.heap[c.snaps[x.value].entry].key == key
    {
      var entered;
      ghost var e;
      entered, e := EnterKey(t, key);
      if entered {
        ghost var from := |h| - 1;
        x := SnapshotEntered(t, e, r);
        RunSettles(h, from, |h| - 1, 0, 0, e);
      } else {
        x := None;
      }
    }

    method SnapshotEntered(t: nat, ghost e: nat, r: Revision) returns (x: Option<nat>)
      requires Inside(t, e, Entered, None)
      modifies this
      ensures Later() && t !in c.threads && OnlyOpen(c, t, x)
      ensures x.Some? ==> x.value in c.snaps && c.snaps[x.value].open && c.snaps[x.value].entry == e && c.snaps[x.value].revision == r
    {
      var refreshed := AwaitRefresh(t, e);
      if !refreshed {
        ExitCaller(t, e, c.threads[t].phase, None);
        return None;
      }
      x := SnapshotRefreshed(t, e, r);
    }

    method SnapshotRefreshed(t: nat, ghost e: nat, r: Revision) returns (x: Option<nat>)
      requires Inside(t, e, Refreshed, None)
      modifies this
      ensures Later() && t !in c.threads && OnlyOpen(c, t, x)
      ensures x.Some? ==> x.value in c.snaps && c.snaps[x.value].open && c.snaps[x.value].entry == e && c.snaps[x.value].revision == r
    {
      var locked := LockEntry(t, e);
      if locked {
        x := UseLocked(t, e, r);
        ExitCaller(t, e, Leaving, x);
      } else {
        ExitCaller(t, e, Refreshed, None);
        x := None;
      }
    }

    /** Closing a snapshot: its pin goes first; then, if the entry's lock is free, stale checkouts are
        pruned. By then the entry may have been evicted and its key taken by a successor. */
    method CloseSnapshot(x: nat)
      requires Valid() && x in c.snaps && c.snaps[x].open
      modifies this
      ensures Later() && x in c.snaps && !c.snaps[x].open
      ensures CanClose(old(c), x) && |h| > |old(h)| && h[|old(h)|] == DoClose(old(c), x)
    {
      Unpin(x);
      PruneAfterClose(x);
      var _, _ := ReclaimSpaceLocked();
    }

    method PruneAfterClose(x: nat)
      requires Valid() && x in c.snaps && !c.snaps[x].open
      modifies this
      ensures Later() && x in c.snaps && !c.snaps[x].open
    {
      Others(Closer(x), 0);
      assert SnapOk(c, x);
      PruneIfFree(x);
      Others(Closer(x), 0);
    }

    method Unpin(x: nat)
      requires Valid() && x in c.snaps && c.snaps[x].open
      modifies this
      ensures Later() && x in c.snaps && !c.snaps[x].open
      ensures CanClose(old(c), x) && c == DoClose(old(c), x) && h == old(h) + [c]
    {
      RunInv(h, |h| - 1);
      SnapHolds(c, x);
      assert SnapOk(c, x);
      RestSection(Step.Close(x), DoClose(c, x));
    }

    method PruneIfFree(x: nat)
      requires Valid() && x in c.snaps && !c.snaps[x].open && c.snaps[x].entry in c.heap
      modifies this
      ensures Later() && x in c.snaps && !c.snaps[x].open
      ensures old(c.heap[c.snaps[x].entry].lock).Some? ==> c == old(c) && h == old(h)
    {
      ghost var e := c.snaps[x].entry;
      if c.heap[c.snaps[x].entry].lock.None? {
        LockSection(LockCloser(x), DoLockCloser(c, x));
        Others(Closer(x), e);
        PruneCheckouts(c.snaps[x].entry);
        LockSection(UnlockCloser(x), DoUnlockCloser(c, x));
      }
    }

    /** The refresh goroutine: it updates the repository under the entry's lock, unless its context
        ends first, and ends its flight in any case. */
    method Refresh(f: nat)
      requires Valid() && Running(c, f) && c.heap[c.flights[f].entry].lock != Some(Refresher(f))
      modifies this
      ensures Later() && f in c.flights && c.flights[f].done.Some?
    {
      ghost var e := c.flights[f].entry;
      var tries: nat := *;
      while tries > 0
        invariant Later() && Running(c, f) && c.flights[f].entry == e && c.heap[e].lock != Some(Refresher(f))
      {
        tries := tries - 1;
        Others(Refresher(f), e);
        if c.heap[c.flights[f].entry].lock.None? {
          UpdateLocked(f, e);
          tries := 0;
        }
      }
      EndFlight(f);
      var _, _ := ReclaimSpaceLocked();
    }

    method UpdateLocked(f: nat, ghost e: nat)
      requires Valid() && Running(c, f) && c.flights[f].entry == e && c.heap[e].lock.None?
      modifies this
      ensures Later() && Running(c, f) && c.flights[f].entry == e && c.heap[e].lock != Some(Refresher(f))
    {
      LockSection(LockRefresh(f), DoLockRefresh(c, f));
      Others(Refresher(f), e);
      var ok: bool := *;
      PruneCheckouts(c.flights[f].entry);
      LockSection(UnlockRefresh(f, ok), DoUnlockRefresh(c, f, ok));
    }

    method EndFlight(f: nat)
      requires Valid() && Running(c, f) && c.heap[c.flights[f].entry].lock != Some(Refresher(f))
      modifies this
      ensures Later() && f in c.flights && c.flights[f].done.Some?
    {
      RunInv(h, |h| - 1);
      assert FlightOk(c, f) && ActiveOk(c, c.flights[f].entry);
      RestSection(EndRefresh(f), DoEndRefresh(c, f));
    }
  }

  lemma {:induction false} FirstGone(c: Cache, idle: seq<nat>, n: nat)
    requires n <= |idle| && ByUse(LastUse(c.heap), idle) && forall e :: e in idle <==> Idle(c, e)
    ensures ByUse(LastUse(c.heap), idle[..n])
    ensures forall g, e :: g in idle[..n] && Idle(c, e) && e !in idle[..n] ==> LastUse(c.heap)(g) <= LastUse(c.heap)(e)
  {
    forall g, e | g in idle[..n] && Idle(c, e) && e !in idle[..n] ensures LastUse(c.heap)(g) <= LastUse(c.heap)(e) {
      var i :| 0 <= i < n && idle[i] == g;
      assert e in idle;
      var j :| 0 <= j < |idle| && idle[j] == e;
      assert j >= n;
      assert LastUse(c.heap)(idle[i]) <= LastUse(c.heap)(idle[j]);
    }
  }
}
