/** The repository cache over whole runs. */
module RepoCacheRuns {
  import opened Common
  import opened Counting
  import opened RepoCache
  import opened RepoCacheInvariant
  import opened RepoCacheSteps

  /** A recovered cache: idle entries that verified nothing yet, over whatever directories persisted,
      whole or not. */
  predicate Initial(c: Cache) {
    && c.flights == map[] && c.threads == map[] && c.snaps == map[] && !c.unproven && c.used == {}
    && (forall e :: e in c.heap ==> Recovered(c.heap[e]))
    && (forall k :: k in c.table ==> c.table[k] in c.heap && c.heap[c.table[k]].key == k)
    && (forall p :: p in c.dirs ==> c.dirs[p].id < c.nextDir)
  }

  predicate Recovered(e: Entry) {
    e == NewEntry(e.key).(current := e.current, lastUsed := e.lastUsed)
  }

  ghost predicate Next(c: Cache, d: Cache) {
    exists s :: Takes(c, s, d)
  }

  ghost predicate Run(h: seq<Cache>) {
    && |h| > 0 && Initial(h[0])
    && forall i {:trigger StepAt(h, i)} :: 0 <= i < |h| - 1 ==> StepAt(h, i)
  }

  ghost predicate StepAt(h: seq<Cache>, i: int)
    requires 0 <= i < |h| - 1
  {
    Next(h[i], h[i + 1])
  }

  lemma {:induction false} InitialInv(c: Cache)
    requires Initial(c)
    ensures Inv(c)
  {
    forall e | e in c.heap ensures ActiveOk(c, e) && LiveOk(c, e) && FlightLink(c, e) {
      assert Recovered(c.heap[e]);
      CountZero(c.threads, OfEntry(e));
      CountZero(c.snaps, OpenOn(e));
    }
    forall e, r | e in c.heap ensures PinsOk(c, e, r) {
      assert Recovered(c.heap[e]);
      CountZero(c.snaps, OpenAt(e, r));
    }
  }

  lemma {:induction false} NextKeepsInv(c: Cache, d: Cache)
    requires Inv(c) && Next(c, d)
    ensures Inv(d)
  {
    var s :| Takes(c, s, d);
    StepKeepsInv(c, s, d);
  }

  lemma {:induction false} RunInv(h: seq<Cache>, i: nat)
    requires Run(h) && i < |h|
    ensures Inv(h[i])
  {
    if i == 0 {
      InitialInv(h[0]);
    } else {
      RunInv(h, i - 1);
      assert StepAt(h, i - 1);
      NextKeepsInv(h[i - 1], h[i]);
    }
  }

  lemma {:induction false} NextSettles(h: seq<Cache>, i: nat, x: nat, f: nat, e: nat)
    requires Run(h) && i + 1 < |h|
    ensures Settled(h[i], h[i + 1], x, f, e)
  {
    assert StepAt(h, i);
    var s :| Takes(h[i], s, h[i + 1]);
    StepSettles(h[i], s, h[i + 1], x, f, e);
  }

  lemma {:induction false} RunSettles(h: seq<Cache>, i: nat, k: nat, x: nat, f: nat, e: nat)
    requires Run(h) && i <= k < |h|
    ensures Settled(h[i], h[k], x, f, e)
    decreases k
  {
    if i == k {
      SettledSelf(h[i], x, f, e);
    } else {
      RunSettles(h, i, k - 1, x, f, e);
      NextSettles(h, k - 1, x, f, e);
      SettledTransitive(h[i], h[k - 1], h[k], x, f, e);
    }
  }

  lemma {:induction false} RunHolds(h: seq<Cache>, i: nat, e: nat)
    requires Run(h) && i < |h| && e in h[i].heap
    ensures HolderLink(h[i], e)
  {
    if i == 0 {
      assert Recovered(h[0].heap[e]);
    } else {
      if e in h[i - 1].heap {
        RunHolds(h, i - 1, e);
      }
      RunInv(h, i - 1);
      assert StepAt(h, i - 1);
      var s :| Takes(h[i - 1], s, h[i]);
      StepHolds(h[i - 1], s, h[i], e);
    }
  }

  /** The place of a snapshot's directory. */
  function PlaceOf(c: Cache, x: nat): (Key, Revision)
    requires x in c.snaps && c.snaps[x].entry in c.heap
  {
    (c.heap[c.snaps[x].entry].key, c.snaps[x].revision)
  }

  /** As long as a snapshot is open, the directory instance it was opened on stays at its place,
      through every prune, rebuild, reclaim and late closer. */
  lemma {:induction false} OpenSnapshotKeepsDirectory(h: seq<Cache>, i: nat, k: nat, x: nat)
    requires Run(h) && i <= k < |h| && x in h[i].snaps && x in h[k].snaps && h[k].snaps[x].open
    ensures h[i].snaps[x].open && h[i].snaps[x].entry in h[i].heap && h[k].snaps[x].entry in h[k].heap
    ensures PlaceOf(h[k], x) == PlaceOf(h[i], x) && PlaceOf(h[k], x) in h[k].dirs && PlaceOf(h[i], x) in h[i].dirs
    ensures h[k].dirs[PlaceOf(h[k], x)].id == h[i].dirs[PlaceOf(h[i], x)].id
  {
    RunInv(h, i);
    RunInv(h, k);
    assert SnapOk(h[i], x) && SnapOk(h[k], x);
    RunSettles(h, i, k, x, 0, h[i].snaps[x].entry);
  }

  /** At every moment an entry has at most one refresh that has not ended, somebody waits for it
      unless it is cancelled, and the entry it belongs to is not evicted. */
  lemma {:induction false} OneRefreshPerEntry(h: seq<Cache>, i: nat, f: nat, g: nat)
    requires Run(h) && i < |h| && f in h[i].flights && g in h[i].flights
    requires h[i].flights[f].done.None? && h[i].flights[g].done.None? && h[i].flights[f].entry == h[i].flights[g].entry
    ensures f == g && Live(h[i], h[i].flights[f].entry)
    ensures !h[i].flights[f].cancelled ==> exists t :: t in h[i].threads && h[i].threads[t].phase == Waiting(f)
  {
    RunInv(h, i);
    var c, e := h[i], h[i].flights[f].entry;
    assert FlightOk(c, f) && FlightOk(c, g) && ActiveOk(c, e) && LiveOk(c, e);
    if !c.flights[f].cancelled {
      if forall t :: t in c.threads ==> c.threads[t].phase != Waiting(f) {
        CountZero(c.threads, WaitingOn(f));
      }
    }
  }

  /** The caller, there ever since, waited for the refresh while it was still running. */
  ghost predicate JoinedLive(h: seq<Cache>, k: nat, t: nat, f: nat) {
    exists j :: 0 <= j <= k < |h| && WaitsLive(h[j], t, f) && ThereBetween(h, j, k, t)
  }

  predicate WaitsLive(c: Cache, t: nat, f: nat) {
    t in c.threads && c.threads[t].phase == Waiting(f) && f in c.flights && c.flights[f].done.None?
  }

  predicate ThereBetween(h: seq<Cache>, j: nat, k: nat, t: nat)
    requires j <= k < |h|
  {
    forall i :: j <= i <= k ==> t in h[i].threads
  }

  lemma {:induction false} PhaseStep(c: Cache, d: Cache, t: nat)
    requires Inv(c) && Next(c, d) && t in d.threads
    ensures PhaseFrom(c, d, t)
  {
    var s :| Takes(c, s, d);
    if CallerTakes(c, s, d) {
      CallerPhaseStep(c, s, d, t);
    } else if LockTakes(c, s, d) {
      LockPhaseStep(c, s, d, t);
    } else if CheckoutTakes(c, s, d) {
      CheckoutPhaseStep(c, s, d, t);
    } else {
      RestPhaseStep(c, s, d, t);
    }
  }

  lemma {:induction false} WaitedLive(h: seq<Cache>, k: nat, t: nat)
    requires Run(h) && k < |h| && t in h[k].threads && h[k].threads[t].phase.Waiting?
    ensures JoinedLive(h, k, t, h[k].threads[t].phase.flight)
  {
    var f := h[k].threads[t].phase.flight;
    if k > 0 {
      RunInv(h, k - 1);
      assert StepAt(h, k - 1);
      PhaseStep(h[k - 1], h[k], t);
      if t in h[k - 1].threads && h[k - 1].threads[t].phase == h[k].threads[t].phase {
        WaitedLive(h, k - 1, t);
        JoinedEarlier(h, k - 1, t, f);
      } else {
        JoinedNow(h, k, t, f);
      }
    }
  }

  lemma {:induction false} JoinedNow(h: seq<Cache>, k: nat, t: nat, f: nat)
    requires k < |h| && WaitsLive(h[k], t, f)
    ensures JoinedLive(h, k, t, f)
  {
    assert ThereBetween(h, k, k, t);
  }

  lemma {:induction false} JoinedEarlier(h: seq<Cache>, k: nat, t: nat, f: nat)
    requires JoinedLive(h, k, t, f) && k + 1 < |h| && t in h[k + 1].threads
    ensures JoinedLive(h, k + 1, t, f)
  {
    var j :| 0 <= j <= k && WaitsLive(h[j], t, f) && ThereBetween(h, j, k, t);
    assert ThereBetween(h, j, k + 1, t);
  }

  /** Every caller that gets past waiting joined, while it was running, a refresh that then succeeded. */
  lemma {:induction false} SuccessJoinedRunningRefresh(h: seq<Cache>, k: nat, t: nat)
    requires Run(h) && k < |h| && t in h[k].threads && PastRefresh(h[k].threads[t].phase)
    ensures exists f :: JoinedLive(h, k, t, f) && f in h[k].flights && h[k].flights[f].done == Some(true)
  {
    var _ := JoinedRefresh(h, k, t);
  }

  lemma {:induction false} JoinedRefresh(h: seq<Cache>, k: nat, t: nat) returns (f: nat)
    requires Run(h) && k < |h| && t in h[k].threads && PastRefresh(h[k].threads[t].phase)
    ensures JoinedLive(h, k, t, f) && f in h[k].flights && h[k].flights[f].done == Some(true)
    decreases k
  {
    if k > 0 {
      RefreshBefore(h, k, t);
      if PastRefresh(h[k - 1].threads[t].phase) {
        f := JoinedRefresh(h, k - 1, t);
      } else {
        f := h[k - 1].threads[t].phase.flight;
        WaitedLive(h, k - 1, t);
      }
      SuccessStays(h, k - 1, t, f);
    }
  }

  /** Whoever is past waiting was so before, or waited for a refresh that has succeeded. */
  lemma {:induction false} RefreshBefore(h: seq<Cache>, k: nat, t: nat)
    requires Run(h) && 0 < k < |h| && t in h[k].threads && PastRefresh(h[k].threads[t].phase)
    ensures t in h[k - 1].threads
    ensures var p := h[k - 1].threads[t].phase;
            PastRefresh(p) || (p.Waiting? && p.flight in h[k - 1].flights && h[k - 1].flights[p.flight].done == Some(true))
  {
    RunInv(h, k - 1);
    assert StepAt(h, k - 1);
    PhaseStep(h[k - 1], h[k], t);
  }

  lemma {:induction false} SuccessStays(h: seq<Cache>, k: nat, t: nat, f: nat)
    requires Run(h) && k + 1 < |h| && t in h[k + 1].threads
    requires JoinedLive(h, k, t, f) && f in h[k].flights && h[k].flights[f].done == Some(true)
    ensures JoinedLive(h, k + 1, t, f) && f in h[k + 1].flights && h[k + 1].flights[f].done == Some(true)
  {
    JoinedEarlier(h, k, t, f);
    NextSettles(h, k, 0, f, 0);
  }
}

/** Which removals and failed checkouts may leave something that is not whole where it is trusted. */
module RepoCacheHonesty {
  import opened Common
  import opened RepoCache
  import opened RepoCacheInvariant

  /** What a live entry calls verified is whole, if it is there. */
  predicate HonestAt(c: Cache, e: nat, r: Revision)
    requires e in c.heap
  {
    Live(c, e) && Verified(c.heap[e], r) && (c.heap[e].key, r) in c.dirs ==> c.dirs[(c.heap[e].key, r)].whole
  }

  ghost predicate AllHonest(c: Cache) {
    forall e, r {:trigger HonestAt(c, e, r)} :: e in c.heap ==> HonestAt(c, e, r)
  }

  predicate Trusted(c: Cache, e: nat, r: Revision) {
    e in c.heap && Verified(c.heap[e], r) && (c.heap[e].key, r) in c.dirs && c.dirs[(c.heap[e].key, r)].whole
  }

  /** A prune or a reclaim that fails halfway on a verified directory, or a checkout that leaves a
      directory which is not whole where the record still says verified. */
  ghost predicate Taints(c: Cache, s: Step) {
    match s
    case Prune(e, r, how, _) => how.Partly? && Trusted(c, e, r)
    case Evict(e, how) => how.Partly? && exists r :: Trusted(c, e, r)
    case Abandon(t, r, left) => left == Some(false) && t in c.threads && c.threads[t].entry in c.heap && Verified(Ent(c, t), r)
    case _ => false
  }

  /** Steps that leave the directories alone, or only take some away. */
  lemma {:induction false} CallerStepHonest(c: Cache, s: Step, d: Cache, e: nat, r: Revision)
    requires CallerTakes(c, s, d) && e in d.heap && (e in c.heap ==> HonestAt(c, e, r))
    ensures HonestAt(d, e, r)
  {
  }

  lemma {:induction false} LockStepHonest(c: Cache, s: Step, d: Cache, e: nat, r: Revision)
    requires LockTakes(c, s, d) && e in d.heap && (e in c.heap ==> HonestAt(c, e, r))
    ensures HonestAt(d, e, r)
  {
  }

  lemma {:induction false} ChooseHonest(c: Cache, t: nat, q: Revision, e: nat, r: Revision)
    requires CanChoose(c, t, q) && e in c.heap && HonestAt(c, e, r) && HonestAt(c, c.threads[t].entry, q)
    requires Live(c, c.threads[t].entry)
    ensures HonestAt(DoChoose(c, t, q), e, r)
  {
  }

  lemma {:induction false} PublishHonest(c: Cache, t: nat, q: Revision, e: nat, r: Revision)
    requires CanPublish(c, t, q) && e in c.heap && HonestAt(c, e, r)
    ensures HonestAt(DoPublish(c, t, q), e, r)
  {
  }

  lemma {:induction false} DiscardHonest(c: Cache, t: nat, q: Revision, how: Removal, e: nat, r: Revision)
    requires CanDiscard(c, t, q, how) && Live(c, c.threads[t].entry) && e in c.heap && HonestAt(c, e, r)
    ensures HonestAt(DoDiscard(c, t, q, how), e, r)
  {
  }

  lemma {:induction false} AbandonHonest(c: Cache, t: nat, q: Revision, left: Option<bool>, e: nat, r: Revision)
    requires CanAbandon(c, t, q, left) && Live(c, c.threads[t].entry) && e in c.heap && HonestAt(c, e, r)
    requires !Taints(c, Abandon(t, q, left))
    ensures HonestAt(DoAbandon(c, t, q, left), e, r)
  {
  }

  lemma {:induction false} PinHonest(c: Cache, t: nat, x: nat, e: nat, r: Revision)
    requires CanPin(c, t, x) && e in c.heap && HonestAt(c, e, r)
    ensures HonestAt(DoPin(c, t, x), e, r)
  {
  }

  lemma {:induction false} CheckoutStepHonest(c: Cache, s: Step, d: Cache, e: nat, r: Revision)
    requires Inv(c) && AllHonest(c) && CheckoutTakes(c, s, d) && !Taints(c, s) && e in d.heap
    ensures HonestAt(d, e, r)
  {
    assert e in c.heap ==> HonestAt(c, e, r);
    CallerHolds(c, s.thread);
    match s
    case Choose(t, q) =>
      assert HonestAt(c, c.threads[t].entry, q);
      ChooseHonest(c, t, q, e, r);
    case Discard(t, q, how) => DiscardTakenHonest(c, t, q, how, d, e, r);
    case Publish(t, q) => PublishHonest(c, t, q, e, r);
    case Abandon(t, q, left) => AbandonTakenHonest(c, t, q, left, d, e, r);
    case Pin(t, x) => PinHonest(c, t, x, e, r);
  }

  lemma {:induction false} DiscardTakenHonest(c: Cache, t: nat, q: Revision, how: Removal, d: Cache, e: nat, r: Revision)
    requires CheckoutTakes(c, Discard(t, q, how), d) && Live(c, c.threads[t].entry) && e in d.heap
    requires e in c.heap ==> HonestAt(c, e, r)
    ensures HonestAt(d, e, r)
  {
    DiscardHonest(c, t, q, how, e, r);
  }

  lemma {:induction false} AbandonTakenHonest(c: Cache, t: nat, q: Revision, left: Option<bool>, d: Cache, e: nat, r: Revision)
    requires CheckoutTakes(c, Abandon(t, q, left), d) && Live(c, c.threads[t].entry) && e in d.heap
    requires !Taints(c, Abandon(t, q, left)) && (e in c.heap ==> HonestAt(c, e, r))
    ensures HonestAt(d, e, r)
  {
    AbandonHonest(c, t, q, left, e, r);
  }

  lemma {:induction false} PruneHonest(c: Cache, g: nat, q: Revision, how: Removal, recordToo: bool, e: nat, r: Revision)
    requires CanPrune(c, g, q, how, recordToo) && e in c.heap && HonestAt(c, e, r) && HonestAt(c, g, q)
    requires !Taints(c, Prune(g, q, how, recordToo))
    ensures HonestAt(DoPrune(c, g, q, how, recordToo), e, r)
  {
  }

  lemma {:induction false} EvictHonest(c: Cache, g: nat, how: Removal, e: nat, r: Revision)
    requires CanEvict(c, g, how) && e in c.heap && HonestAt(c, e, r)
    requires !Taints(c, Evict(g, how))
    ensures HonestAt(DoEvict(c, g, how), e, r)
  {
    assert !(how.Partly? && Trusted(c, e, r) && e == g);
  }

  lemma {:induction false} CloseHonest(c: Cache, x: nat, e: nat, r: Revision)
    requires CanClose(c, x) && e in c.heap && HonestAt(c, e, r)
    ensures HonestAt(DoClose(c, x), e, r)
  {
  }

  lemma {:induction false} RestStepHonest(c: Cache, s: Step, d: Cache, e: nat, r: Revision)
    requires AllHonest(c) && RestTakes(c, s, d) && !Taints(c, s) && e in d.heap
    ensures HonestAt(d, e, r)
  {
    assert e in c.heap ==> HonestAt(c, e, r);
    match s
    case Prune(g, q, how, recordToo) =>
      assert HonestAt(c, g, q);
      PruneHonest(c, g, q, how, recordToo, e, r);
    case Evict(g, how) => EvictHonest(c, g, how, e, r);
    case Close(x) => CloseHonest(c, x, e, r);
    case _ =>
  }

  lemma {:induction false} StepHonest(c: Cache, s: Step, d: Cache)
    requires Inv(c) && AllHonest(c) && Takes(c, s, d) && !Taints(c, s)
    ensures AllHonest(d)
  {
    forall e, r | e in d.heap ensures HonestAt(d, e, r) {
      StepHonestAt(c, s, d, e, r);
    }
  }

  lemma {:induction false} StepHonestAt(c: Cache, s: Step, d: Cache, e: nat, r: Revision)
    requires Inv(c) && AllHonest(c) && Takes(c, s, d) && !Taints(c, s) && e in d.heap
    ensures HonestAt(d, e, r)
  {
    assert e in c.heap ==> HonestAt(c, e, r);
    if CallerTakes(c, s, d) {
      CallerStepHonest(c, s, d, e, r);
    } else if LockTakes(c, s, d) {
      LockStepHonest(c, s, d, e, r);
    } else if CheckoutTakes(c, s, d) {
      CheckoutStepHonest(c, s, d, e, r);
    } else {
      RestStepHonest(c, s, d, e, r);
    }
  }

  lemma {:induction false} TaintShows(c: Cache, s: Step, d: Cache) returns (e: nat, r: Revision)
    requires Inv(c) && Takes(c, s, d) && Taints(c, s)
    ensures e in d.heap && !HonestAt(d, e, r)
  {
    match s
    case Prune(g, q, how, recordToo) =>
      PruneShows(c, g, q, recordToo);
      e, r := g, q;
    case Evict(g, how) =>
      r :| Trusted(c, g, r);
      EvictShows(c, g, r);
      e := g;
    case Abandon(t, q, left) =>
      CallerHolds(c, t);
      AbandonShows(c, t, q);
      e, r := c.threads[t].entry, q;
  }

  lemma {:induction false} PruneShows(c: Cache, e: nat, r: Revision, recordToo: bool)
    requires CanPrune(c, e, r, Partly, recordToo) && Trusted(c, e, r)
    ensures !HonestAt(DoPrune(c, e, r, Partly, recordToo), e, r)
  {
  }

  lemma {:induction false} EvictShows(c: Cache, e: nat, r: Revision)
    requires CanEvict(c, e, Partly) && Trusted(c, e, r)
    ensures !HonestAt(DoEvict(c, e, Partly), e, r)
  {
  }

  lemma {:induction false} AbandonShows(c: Cache, t: nat, r: Revision)
    requires CanAbandon(c, t, r, Some(false)) && Live(c, c.threads[t].entry) && Verified(Ent(c, t), r)
    ensures !HonestAt(DoAbandon(c, t, r, Some(false)), c.threads[t].entry, r)
  {
  }

  /** The guard that fails, exactly: from a state in which everything trusted is whole, a step leads
      to such a state again if and only if it does not taint. */
  lemma {:induction false} HonestIffUntainted(c: Cache, s: Step, d: Cache)
    requires Inv(c) && AllHonest(c) && Takes(c, s, d)
    ensures AllHonest(d) <==> !Taints(c, s)
  {
    if Taints(c, s) {
      var e, r := TaintShows(c, s, d);
    } else {
      StepHonest(c, s, d);
    }
  }

  /** A step that changes no directory does not taint. */
  lemma {:induction false} SameDirsNoTaint(c: Cache, s: Step, d: Cache)
    requires Inv(c) && Takes(c, s, d) && d.dirs == c.dirs
    ensures !Taints(c, s)
  {
  }
}

/** What the cache hands out over whole runs: everything is whole exactly as long as no step taints. */
module RepoCacheDamage {
  import opened Common
  import opened RepoCache
  import opened RepoCacheInvariant
  import opened RepoCacheSteps
  import opened RepoCacheRuns
  import opened RepoCacheHonesty

  function Last(h: seq<Cache>): Cache
    requires |h| > 0
  {
    h[|h| - 1]
  }

  ghost predicate TaintingStep(h: seq<Cache>, i: nat)
    requires i + 1 < |h|
  {
    exists s :: Takes(h[i], s, h[i + 1]) && Taints(h[i], s)
  }

  ghost predicate Untainted(h: seq<Cache>, a: nat, b: nat)
    requires b < |h|
  {
    forall i {:trigger TaintingStep(h, i)} :: a <= i < b ==> !TaintingStep(h, i)
  }

  lemma {:induction false} NextHonest(h: seq<Cache>, i: nat)
    requires Run(h) && i + 1 < |h| && AllHonest(h[i])
    ensures AllHonest(h[i + 1]) <==> !TaintingStep(h, i)
  {
    RunInv(h, i);
    assert StepAt(h, i);
    var s :| Takes(h[i], s, h[i + 1]);
    HonestIffUntainted(h[i], s, h[i + 1]);
    if TaintingStep(h, i) {
      var z :| Takes(h[i], z, h[i + 1]) && Taints(h[i], z);
      HonestIffUntainted(h[i], z, h[i + 1]);
    }
  }

  lemma {:induction false} InitialHonest(c: Cache)
    requires Initial(c)
    ensures AllHonest(c)
  {
    forall e, r | e in c.heap ensures HonestAt(c, e, r) {
      assert Recovered(c.heap[e]);
    }
  }

  /** Everything trusted was whole at every moment up to k if and only if no step before k tainted. */
  lemma {:induction false} HonestRunIffUntainted(h: seq<Cache>, k: nat)
    requires Run(h) && k < |h|
    ensures (forall i :: 0 <= i <= k ==> AllHonest(h[i])) <==> Untainted(h, 0, k)
  {
    InitialHonest(h[0]);
    if k > 0 {
      HonestRunIffUntainted(h, k - 1);
      if AllHonest(h[k - 1]) {
        NextHonest(h, k - 1);
      }
      if Untainted(h, 0, k) {
        assert Untainted(h, 0, k - 1);
      }
      if forall i :: 0 <= i <= k ==> AllHonest(h[i]) {
        assert AllHonest(h[k - 1]) && AllHonest(h[k]);
        assert Untainted(h, 0, k - 1);
      }
    }
  }

  lemma {:induction false} StaysHonest(h: seq<Cache>, a: nat, b: nat)
    requires Run(h) && a <= b < |h| && AllHonest(h[a]) && Untainted(h, a, b)
    ensures AllHonest(h[b])
    decreases b
  {
    if a < b {
      assert Untainted(h, a, b - 1);
      StaysHonest(h, a, b - 1);
      NextHonest(h, b - 1);
    }
  }

  predicate ServesDamaged(c: Cache, x: nat) {
    && x in c.snaps && c.snaps[x].open && c.snaps[x].entry in c.heap
    && PlaceOf(c, x) in c.dirs && !c.dirs[PlaceOf(c, x)].whole
  }

  lemma {:induction false} HonestServesWhole(c: Cache, x: nat)
    requires Inv(c) && AllHonest(c)
    ensures !ServesDamaged(c, x)
  {
    if x in c.snaps && c.snaps[x].open {
      SnapHolds(c, x);
      assert SnapOk(c, x);
      assert HonestAt(c, c.snaps[x].entry, c.snaps[x].revision);
    }
  }

  /** What an open snapshot shows is whole, persisted wreckage or not, as long as no step tainted. */
  lemma {:induction false} OpenSnapshotIsWhole(h: seq<Cache>, k: nat, x: nat)
    requires Run(h) && k < |h| && Untainted(h, 0, k) && x in h[k].snaps && h[k].snaps[x].open
    ensures h[k].snaps[x].entry in h[k].heap && PlaceOf(h[k], x) in h[k].dirs && h[k].dirs[PlaceOf(h[k], x)].whole
  {
    RunInv(h, k);
    InitialHonest(h[0]);
    StaysHonest(h, 0, k);
    assert SnapOk(h[k], x);
    HonestServesWhole(h[k], x);
  }

  /** g goes on from h, and no directory changes after h's last moment. */
  ghost predicate SameDirsSince(h: seq<Cache>, g: seq<Cache>) {
    && |h| > 0 && h <= g
    && forall i :: |h| - 1 <= i < |g| ==> g[i].dirs == Last(h).dirs
  }

  lemma {:induction false} SinceThen(h: seq<Cache>, g: seq<Cache>, k: seq<Cache>)
    requires SameDirsSince(h, g) && SameDirsSince(g, k)
    ensures SameDirsSince(h, k)
  {
    assert Last(g) == g[|g| - 1];
  }

  lemma {:induction false} SinceUntainted(h: seq<Cache>, g: seq<Cache>)
    requires Run(g) && SameDirsSince(h, g)
    ensures Untainted(g, |h| - 1, |g| - 1)
  {
    forall i | |h| - 1 <= i < |g| - 1 ensures !TaintingStep(g, i) {
      RunInv(g, i);
      if TaintingStep(g, i) {
        var s :| Takes(g[i], s, g[i + 1]) && Taints(g[i], s);
        SameDirsNoTaint(g[i], s, g[i + 1]);
      }
    }
  }

  lemma {:induction false} Extend(h: seq<Cache>, d: Cache) returns (g: seq<Cache>)
    requires Run(h) && Next(Last(h), d)
    ensures Run(g) && Last(g) == d && g == h + [d]
    ensures d.dirs == Last(h).dirs ==> SameDirsSince(h, g)
  {
    g := h + [d];
    ExtendRuns(h, d);
    SinceOne(h, d);
  }

  lemma {:induction false} ExtendRuns(h: seq<Cache>, d: Cache)
    requires Run(h) && Next(Last(h), d)
    ensures Run(h + [d])
  {
    var g := h + [d];
    assert g[0] == h[0];
    forall i | 0 <= i < |g| - 1 ensures StepAt(g, i) {
      assert i < |h| - 1 ==> StepAt(h, i);
    }
  }

  lemma {:induction false} SinceOne(h: seq<Cache>, d: Cache)
    requires |h| > 0
    ensures d.dirs == Last(h).dirs ==> SameDirsSince(h, h + [d])
  {
  }

  lemma {:induction false} CallerThen(h: seq<Cache>, s: Step, d: Cache) returns (g: seq<Cache>)
    requires Run(h) && CallerTakes(Last(h), s, d)
    ensures Run(g) && Last(g) == d && g == h + [d]
    ensures d.dirs == Last(h).dirs ==> SameDirsSince(h, g)
  {
    assert Takes(Last(h), s, d);
    g := Extend(h, d);
  }

  lemma {:induction false} LockThen(h: seq<Cache>, s: Step, d: Cache) returns (g: seq<Cache>)
    requires Run(h) && LockTakes(Last(h), s, d)
    ensures Run(g) && Last(g) == d && g == h + [d] && SameDirsSince(h, g)
  {
    assert Takes(Last(h), s, d);
    g := Extend(h, d);
  }

  lemma {:induction false} CheckoutThen(h: seq<Cache>, s: Step, d: Cache) returns (g: seq<Cache>)
    requires Run(h) && CheckoutTakes(Last(h), s, d)
    ensures Run(g) && Last(g) == d && g == h + [d]
    ensures d.dirs == Last(h).dirs ==> SameDirsSince(h, g)
  {
    assert Takes(Last(h), s, d);
    g := Extend(h, d);
  }

  lemma {:induction false} RestThen(h: seq<Cache>, s: Step, d: Cache) returns (g: seq<Cache>)
    requires Run(h) && RestTakes(Last(h), s, d)
    ensures Run(g) && Last(g) == d && g == h + [d]
    ensures d.dirs == Last(h).dirs ==> SameDirsSince(h, g)
  {
    assert Takes(Last(h), s, d);
    g := Extend(h, d);
  }

  /** One caller's refresh, run to its end, up to the caller holding the entry's lock. */
  function AfterRefresh(c: Cache, t: nat, f: nat): Cache
    requires t in c.threads && c.threads[t].entry in c.heap
  {
    var e := c.threads[t].entry;
    c.(heap := c.heap[e := c.heap[e].(valid := true, lock := Some(Caller(t)))],
       threads := c.threads[t := Thread(e, Holding)],
       flights := c.flights[f := Flight(e, 0, true, true, Some(true))])
  }

  /** The refresh has been done, and the caller still waits. */
  function Refreshing(c: Cache, t: nat, f: nat): Cache
    requires t in c.threads && c.threads[t].entry in c.heap
  {
    var e := c.threads[t].entry;
    c.(heap := c.heap[e := c.heap[e].(valid := true, active := c.heap[e].active + 1, flight := Some(f))],
       threads := c.threads[t := Thread(e, Waiting(f))],
       flights := c.flights[f := Flight(e, 1, false, true, None)])
  }

  lemma {:induction false} RefreshRuns(h: seq<Cache>, t: nat, f: nat) returns (g: seq<Cache>)
    requires Run(h) && CanStart(Last(h), t, f) && Ent(Last(h), t).lock.None?
    ensures Run(g) && Last(g) == Refreshing(Last(h), t, f) && SameDirsSince(h, g)
  {
    var c, e := Last(h), Last(h).threads[t].entry;
    var c1 := DoStart(c, t, f);
    var g1 := CallerThen(h, Start(t, f), c1);
    var c2 := DoLockRefresh(c1, f);
    var g2 := LockThen(g1, LockRefresh(f), c2);
    var c3 := DoUnlockRefresh(c2, f, true);
    g := LockThen(g2, UnlockRefresh(f, true), c3);
    SinceThen(h, g1, g2);
    SinceThen(h, g2, g);
    assert c3.heap == Refreshing(c, t, f).heap && c3.flights == Refreshing(c, t, f).flights;
  }

  lemma {:induction false} RefreshEnds(h: seq<Cache>, c: Cache, t: nat, f: nat) returns (g: seq<Cache>)
    requires Run(h) && CanStart(c, t, f) && Ent(c, t).lock.None? && Last(h) == Refreshing(c, t, f)
    ensures Run(g) && Last(g) == AfterRefresh(c, t, f) && SameDirsSince(h, g)
  {
    EndsFlight(c, t, f);
    var g1 := RestThen(h, EndRefresh(f), Ended(c, t, f));
    LeavesEnded(c, t, f);
    var g2 := CallerThen(g1, Leave(t, true), Left(c, t, f));
    LocksLeft(c, t, f);
    g := LockThen(g2, LockCaller(t), AfterRefresh(c, t, f));
    SinceThen(h, g1, g2);
    SinceThen(h, g2, g);
  }

  /** The refresh has ended. */
  function Ended(c: Cache, t: nat, f: nat): Cache
    requires t in c.threads && c.threads[t].entry in c.heap
  {
    var e := c.threads[t].entry;
    c.(heap := c.heap[e := c.heap[e].(valid := true)],
       threads := c.threads[t := Thread(e, Waiting(f))],
       flights := c.flights[f := Flight(e, 1, false, true, Some(true))])
  }

  /** Its only waiter has left. */
  function Left(c: Cache, t: nat, f: nat): Cache
    requires t in c.threads && c.threads[t].entry in c.heap
  {
    var e := c.threads[t].entry;
    c.(heap := c.heap[e := c.heap[e].(valid := true)],
       threads := c.threads[t := Thread(e, Phase.Refreshed)],
       flights := c.flights[f := Flight(e, 0, true, true, Some(true))])
  }

  lemma {:induction false} EndsFlight(c: Cache, t: nat, f: nat)
    requires CanStart(c, t, f) && Ent(c, t).lock.None?
    ensures CanEndRefresh(Refreshing(c, t, f), f) && DoEndRefresh(Refreshing(c, t, f), f) == Ended(c, t, f)
  {
    assert DoEndRefresh(Refreshing(c, t, f), f).heap == Ended(c, t, f).heap;
    assert DoEndRefresh(Refreshing(c, t, f), f).flights == Ended(c, t, f).flights;
  }

  lemma {:induction false} LeavesEnded(c: Cache, t: nat, f: nat)
    requires CanStart(c, t, f)
    ensures CanLeave(Ended(c, t, f), t, true) && DoLeave(Ended(c, t, f), t, true) == Left(c, t, f)
  {
    assert DoLeave(Ended(c, t, f), t, true).threads == Left(c, t, f).threads;
    assert DoLeave(Ended(c, t, f), t, true).flights == Left(c, t, f).flights;
  }

  lemma {:induction false} LocksLeft(c: Cache, t: nat, f: nat)
    requires CanStart(c, t, f) && Ent(c, t).lock.None?
    ensures CanLockCaller(Left(c, t, f), t) && DoLockCaller(Left(c, t, f), t) == AfterRefresh(c, t, f)
  {
    assert DoLockCaller(Left(c, t, f), t).heap == AfterRefresh(c, t, f).heap;
    assert DoLockCaller(Left(c, t, f), t).threads == AfterRefresh(c, t, f).threads;
  }

  lemma {:induction false} RefreshFlow(h: seq<Cache>, t: nat, f: nat) returns (g: seq<Cache>)
    requires Run(h) && CanStart(Last(h), t, f) && Ent(Last(h), t).lock.None?
    ensures Run(g) && Last(g) == AfterRefresh(Last(h), t, f) && SameDirsSince(h, g)
  {
    var g1 := RefreshRuns(h, t, f);
    g := RefreshEnds(g1, Last(h), t, f);
    SinceThen(h, g1, g);
  }

  /** A live entry trusts a directory that is not whole. */
  predicate Stained(c: Cache, e: nat, r: Revision) {
    && Live(c, e) && Verified(c.heap[e], r)
    && (c.heap[e].key, r) in c.dirs && !c.dirs[(c.heap[e].key, r)].whole
  }

  lemma {:induction false} Above(s: set<nat>) returns (n: nat)
    ensures forall k :: k in s ==> k < n
    decreases s
  {
    if s == {} {
      n := 0;
    } else {
      var k :| k in s;
      var m := Above(s - {k});
      n := if m <= k then k + 1 else m;
      assert forall j :: j in s ==> j == k || j in s - {k};
    }
  }

  lemma {:induction false} ChosenPinned(h: seq<Cache>, e: nat, r: Revision, t: nat) returns (g: seq<Cache>)
    requires Run(h) && Stained(Last(h), e, r) && t in Last(h).threads && Last(h).threads[t].entry == e && Last(h).threads[t].phase.Chosen?
    ensures Run(g) && SameDirsSince(h, g) && Stained(Last(g), e, r)
    ensures At(Last(g), t, Holding) && Last(g).threads[t].entry == e && Ent(Last(g), t).lock == Last(h).heap[e].lock
  {
    RunInv(h, |h| - 1);
    assert ChosenOk(Last(h), t);
    var x := Above(Last(h).snaps.Keys);
    g := CheckoutThen(h, Pin(t, x), DoPin(Last(h), t, x));
  }

  /** Whoever holds the entry's lock can leave it without touching a directory. */
  lemma {:induction false} LockFreed(h: seq<Cache>, e: nat, r: Revision) returns (g: seq<Cache>)
    requires Run(h) && Stained(Last(h), e, r)
    ensures Run(g) && SameDirsSince(h, g) && Stained(Last(g), e, r) && Last(g).heap[e].lock.None?
  {
    var c := Last(h);
    RunHolds(h, |h| - 1, e);
    RunInv(h, |h| - 1);
    g := h;
    match c.heap[e].lock
    case None =>
    case Some(Caller(t)) => g := CallerFreed(h, e, r, t);
    case Some(Refresher(f)) =>
      assert FlightLink(c, e);
      g := LockThen(h, UnlockRefresh(f, true), DoUnlockRefresh(c, f, true));
    case Some(Closer(x)) =>
      g := LockThen(h, UnlockCloser(x), DoUnlockCloser(c, x));
  }

  lemma {:induction false} CallerFreed(h: seq<Cache>, e: nat, r: Revision, t: nat) returns (g: seq<Cache>)
    requires Run(h) && Stained(Last(h), e, r) && HolderLink(Last(h), e) && Last(h).heap[e].lock == Some(Caller(t))
    ensures Run(g) && SameDirsSince(h, g) && Stained(Last(g), e, r) && Last(g).heap[e].lock.None?
  {
    if Last(h).threads[t].phase.Chosen? {
      var g1 := ChosenPinned(h, e, r, t);
      g := LockThen(g1, UnlockCaller(t), DoUnlockCaller(Last(g1), t));
      SinceThen(h, g1, g);
    } else {
      g := LockThen(h, UnlockCaller(t), DoUnlockCaller(Last(h), t));
    }
  }

  /** A refresh in flight can end. */
  lemma {:induction false} FlightEnded(h: seq<Cache>, e: nat, r: Revision) returns (g: seq<Cache>)
    requires Run(h) && Stained(Last(h), e, r) && Last(h).heap[e].lock.None?
    ensures Run(g) && SameDirsSince(h, g) && Stained(Last(g), e, r) && Last(g).heap[e].lock.None? && Last(g).heap[e].flight.None?
  {
    var c := Last(h);
    RunInv(h, |h| - 1);
    g := h;
    if c.heap[e].flight.Some? {
      var f := c.heap[e].flight.value;
      assert FlightLink(c, e) && ActiveOk(c, e);
      g := RestThen(h, EndRefresh(f), DoEndRefresh(c, f));
    }
  }

  lemma {:induction false} NextServes(h: seq<Cache>, e: nat, r: Revision) returns (g: seq<Cache>, x: nat)
    requires Run(h) && Stained(Last(h), e, r) && Last(h).heap[e].lock.None? && Last(h).heap[e].flight.None?
    ensures Run(g) && SameDirsSince(h, g) && ServesDamaged(Last(g), x)
  {
    var c := Last(h);
    var key := c.heap[e].key;
    var t := Above(c.used);
    var f := Above(c.flights.Keys);
    var g1 := CallerThen(h, Enter(t, key), DoEnter(c, t, key));
    var g2 := RefreshFlow(g1, t, f);
    SinceThen(h, g1, g2);
    g, x := ChosenServes(g2, e, r, t);
    SinceThen(h, g2, g);
  }

  lemma {:induction false} ChosenServes(h: seq<Cache>, e: nat, r: Revision, t: nat) returns (g: seq<Cache>, x: nat)
    requires Run(h) && Stained(Last(h), e, r) && CanChoose(Last(h), t, r) && Last(h).threads[t].entry == e
    ensures Run(g) && SameDirsSince(h, g) && ServesDamaged(Last(g), x)
  {
    var g1 := CheckoutThen(h, Choose(t, r), DoChoose(Last(h), t, r));
    x := Above(Last(g1).snaps.Keys);
    g := CheckoutThen(g1, Pin(t, x), DoPin(Last(g1), t, x));
    SinceThen(h, g1, g);
  }

  /** g goes on from h without tainting. */
  ghost predicate Onward(h: seq<Cache>, g: seq<Cache>) {
    Run(g) && |h| > 0 && h <= g && Untainted(g, |h| - 1, |g| - 1)
  }

  /** Exactly when something trusted is not whole can a snapshot come to show it, without anything
      more going wrong: what was verified once in this process is not verified again. */
  lemma {:induction false} ServableIffDishonest(h: seq<Cache>)
    requires Run(h)
    ensures !AllHonest(Last(h)) <==> exists g, x :: Onward(h, g) && ServesDamaged(Last(g), x)
  {
    if AllHonest(Last(h)) {
      forall g, x | Onward(h, g) ensures !ServesDamaged(Last(g), x) {
        assert g[|h| - 1] == Last(h);
        StaysHonest(g, |h| - 1, |g| - 1);
        RunInv(g, |g| - 1);
        HonestServesWhole(Last(g), x);
      }
    } else {
      var e, r :| e in Last(h).heap && !HonestAt(Last(h), e, r);
      var g1 := LockFreed(h, e, r);
      var g2 := FlightEnded(g1, e, r);
      var g, x := NextServes(g2, e, r);
      SinceThen(h, g1, g2);
      SinceThen(h, g2, g);
      SinceUntainted(h, g);
      assert Onward(h, g);
    }
  }

  const DONE := Flight(0, 0, true, true, Some(true))

  /** The state after one snapshot of "r" was opened under the entry's lock. */
  function Opened(): Cache {
    Cache(map["k" := 0], map[0 := Entry("k", 2, None, true, Some(Caller(0)), map["r" := Checkout(true, 1)], "r", 0)],
      map[0 := DONE], map[0 := Thread(0, Holding)], map[0 := Snap(0, "r", 0, true, 0)], map[("k", "r") := Dir(0, true)], 1, false, {0})
  }

  lemma {:induction false} OpensOne() returns (h: seq<Cache>)
    ensures Run(h) && Last(h) == Opened()
  {
    h := HoldsOne();
    PublishesOne();
    h := CheckoutThen(h, Publish(0, "r"), DoPublish(Held(), 0, "r"));
    h := CheckoutThen(h, Pin(0, 0), Opened());
  }

  lemma {:induction false} HoldsOne() returns (h: seq<Cache>)
    ensures Run(h) && Last(h) == Held()
  {
    var empty := Cache(map[], map[], map[], map[], map[], map[], 0, false, {});
    h := CallerThen([empty], Create(0, "k", 0), DoCreate(empty, 0, "k", 0));
    h := RefreshFlow(h, 0, 0);
    assert Last(h).heap == Held().heap && Last(h).flights == Held().flights && Last(h).threads == Held().threads;
  }

  /** The first caller holds the new entry's lock. */
  function Held(): Cache {
    Cache(map["k" := 0], map[0 := Entry("k", 1, None, true, Some(Caller(0)), map[], "", 0)],
      map[0 := DONE], map[0 := Thread(0, Holding)], map[], map[], 0, false, {0})
  }

  lemma {:induction false} PublishesOne()
    ensures CanPublish(Held(), 0, "r") && CanPin(DoPublish(Held(), 0, "r"), 0, 0)
    ensures DoPin(DoPublish(Held(), 0, "r"), 0, 0) == Opened()
  {
    var d := DoPin(DoPublish(Held(), 0, "r"), 0, 0);
    assert d.heap[0] == Opened().heap[0];
    assert d.heap == Opened().heap && d.threads == Opened().threads;
    assert d.snaps == Opened().snaps && d.dirs == Opened().dirs;
  }

  /** That snapshot is closed and its caller gone. */
  function Idle(): Cache {
    Cache(map["k" := 0], map[0 := Entry("k", 0, None, true, None, map["r" := Checkout(true, 0)], "r", 0)],
      map[0 := DONE], map[], map[0 := Snap(0, "r", 0, false, 0)], map[("k", "r") := Dir(0, true)], 1, false, {0})
  }

  function CallerGone(): Cache {
    Opened().(heap := map[0 := Entry("k", 1, None, true, None, map["r" := Checkout(true, 1)], "r", 0)], threads := map[])
  }

  lemma {:induction false} LeavesOne() returns (h: seq<Cache>)
    ensures Run(h) && Last(h) == CallerGone()
  {
    h := OpensOne();
    var c1 := DoUnlockCaller(Opened(), 0);
    h := LockThen(h, UnlockCaller(0), c1);
    var c2 := DoExit(c1, 0);
    h := CallerThen(h, Exit(0), c2);
    assert c2.heap == CallerGone().heap && c2.threads == CallerGone().threads;
  }

  lemma {:induction false} ClosesOne() returns (h: seq<Cache>)
    ensures Run(h) && Last(h) == Idle()
  {
    h := LeavesOne();
    var c := DoClose(CallerGone(), 0);
    h := RestThen(h, Step.Close(0), c);
    assert c.heap[0].checkouts == map["r" := Checkout(true, 0)];
    assert c.heap == Idle().heap && c.snaps == Idle().snaps;
  }

  /** Then a reclaim of the entry fails halfway, and a snapshot opens what it left: this does happen. */
  lemma {:induction false} DamagedDirectoryIsServed()
    ensures exists h, x :: Run(h) && ServesDamaged(Last(h), x)
  {
    var h := ClosesOne();
    var d := DoEvict(Idle(), 0, Partly);
    var g := RestThen(h, Evict(0, Partly), d);
    assert !HonestAt(d, 0, "r");
    ServableIffDishonest(g);
  }
}
