/** Counting the values of a finite map. */
module Counting {
  function Those<T>(m: map<nat, T>, p: T -> bool): set<nat> {
    set k | k in m && p(m[k])
  }

  function Count<T>(m: map<nat, T>, p: T -> bool): nat {
    |Those(m, p)|
  }

  function One(b: bool): nat { if b then 1 else 0 }

  lemma {:induction false} CountWithout<T>(m: map<nat, T>, k: nat, p: T -> bool)
    ensures Count(m, p) == |Those(m, p) - {k}| + One(k in m && p(m[k]))
  {
    assert Those(m, p) == (Those(m, p) - {k}) + if k in m && p(m[k]) then {k} else {};
  }

  /** Adding or replacing one value. */
  lemma {:induction false} CountSet<T>(m: map<nat, T>, k: nat, v: T, p: T -> bool)
    ensures Count(m[k := v], p) + One(k in m && p(m[k])) == Count(m, p) + One(p(v))
  {
    CountWithout(m, k, p);
    CountWithout(m[k := v], k, p);
    OthersCounted(m, m[k := v], k, p);
  }

  lemma {:induction false} OthersCounted<T>(m: map<nat, T>, n: map<nat, T>, k: nat, p: T -> bool)
    requires forall j :: j != k ==> (j in n <==> j in m) && (j in m && j in n ==> n[j] == m[j])
    ensures Those(m, p) - {k} == Those(n, p) - {k}
  {
  }

  lemma {:induction false} CountDrop<T>(m: map<nat, T>, k: nat, p: T -> bool)
    requires k in m
    ensures Count(m - {k}, p) + One(p(m[k])) == Count(m, p)
  {
    assert Those(m, p) == Those(m - {k}, p) + if p(m[k]) then {k} else {};
  }

  lemma {:induction false} CountPositive<T>(m: map<nat, T>, k: nat, p: T -> bool)
    requires k in m && p(m[k])
    ensures Count(m, p) >= 1
  {
    assert k in Those(m, p);
  }

  lemma {:induction false} CountZero<T>(m: map<nat, T>, p: T -> bool)
    requires forall k :: k in m ==> !p(m[k])
    ensures Count(m, p) == 0
  {
    assert Those(m, p) == {};
  }
}

/** The repository cache's bookkeeping: its two locks' critical sections, one step each
    (src/internal/repocache/manager.go, checkout.go, storage.go). */
module RepoCache {
  import opened Common
  import opened Counting

  type Key = string
  type Revision = string

  /** pins counts every open snapshot of the directory. */
  datatype Checkout = Checkout(verified: bool, pins: nat)

  datatype Holder = Caller(thread: nat) | Refresher(flight: nat) | Closer(snap: nat)

  /** active counts callers, running refreshes and open snapshots; lock is the entry's own mutex. */
  datatype Entry = Entry(
    key: Key,
    active: nat,
    flight: Option<nat>,
    valid: bool,
    lock: Option<Holder>,
    checkouts: map<Revision, Checkout>,
    current: Revision,
    lastUsed: nat
  )

  /** A shared refresh; updated is whether its update succeeded, done its outcome once it has ended. */
  datatype Flight = Flight(entry: nat, waiters: nat, cancelled: bool, updated: bool, done: Option<bool>)

  /** Where a caller of snapshot stands. */
  datatype Phase = Entered | Waiting(flight: nat) | Refreshed | Holding | Chosen(revision: Revision) | Leaving

  datatype Thread = Thread(entry: nat, phase: Phase)

  /** dir is the directory instance behind the snapshot's root, owner the call that pinned it. */
  datatype Snap = Snap(entry: nat, revision: Revision, dir: nat, open: bool, owner: nat)

  /** whole says that the directory is what its revision's checksum covers: neither half written nor
      half removed. */
  datatype Dir = Dir(id: nat, whole: bool)

  /** Evicted entries stay in the heap beside their successors of the same key. Each call of snapshot
      is a thread of its own; used holds all there ever were. */
  datatype Cache = Cache(
    table: map<Key, nat>,
    heap: map<nat, Entry>,
    flights: map<nat, Flight>,
    threads: map<nat, Thread>,
    snaps: map<nat, Snap>,
    dirs: map<(Key, Revision), Dir>,
    nextDir: nat,
    unproven: bool,
    used: set<nat>
  )

  datatype Removal = Removed | Partly

  datatype Step =
    // one caller of snapshot
    | Enter(thread: nat, key: Key)
    | Create(thread: nat, key: Key, entry: nat)
    | Join(thread: nat)
    | Start(thread: nat, flight: nat)
    | Leave(thread: nat, ok: bool)
    | LockCaller(thread: nat)
    | Choose(thread: nat, revision: Revision)
    | Discard(thread: nat, revision: Revision, how: Removal)
    | Publish(thread: nat, revision: Revision)
    | Abandon(thread: nat, revision: Revision, left: Option<bool>)
    | Pin(thread: nat, snap: nat)
    | UnlockCaller(thread: nat)
    | Touch(thread: nat, time: nat)
    | Exit(thread: nat)
    // the shared refresh
    | Cancel(flight: nat)
    | LockRefresh(flight: nat)
    | UnlockRefresh(flight: nat, ok: bool)
    | EndRefresh(flight: nat)
    // one snapshot's reader
    | Close(snap: nat)
    | LockCloser(snap: nat)
    | UnlockCloser(snap: nat)
    // under both locks, and under the manager's lock
    | Prune(entry: nat, revision: Revision, how: Removal, recordToo: bool)
    | Evict(entry: nat, how: Removal)
    | Poison

  predicate Live(c: Cache, e: nat) {
    e in c.heap && c.heap[e].key in c.table && c.table[c.heap[e].key] == e
  }

  predicate At(c: Cache, t: nat, phase: Phase) {
    t in c.threads && c.threads[t].phase == phase && c.threads[t].entry in c.heap
  }

  function Ent(c: Cache, t: nat): Entry
    requires t in c.threads && c.threads[t].entry in c.heap
  {
    c.heap[c.threads[t].entry]
  }

  predicate Verified(e: Entry, r: Revision) {
    r in e.checkouts && e.checkouts[r].verified
  }

  predicate Unpinned(e: Entry, r: Revision) {
    r in e.checkouts ==> e.checkouts[r].pins == 0
  }

  predicate HoldsLock(c: Cache, t: nat) {
    At(c, t, Holding) && Ent(c, t).lock == Some(Caller(t)) && Ent(c, t).valid
  }

  function Place(c: Cache, t: nat, r: Revision): (Key, Revision)
    requires t in c.threads && c.threads[t].entry in c.heap
  {
    (Ent(c, t).key, r)
  }

  predicate Running(c: Cache, f: nat) {
    f in c.flights && c.flights[f].done.None? && c.flights[f].entry in c.heap
  }

  function NewEntry(key: Key): Entry {
    Entry(key, 0, None, false, None, map[], "", 0)
  }

  function SetEntry(c: Cache, e: nat, v: Entry): Cache {
    c.(heap := c.heap[e := v])
  }

  function SetPhase(c: Cache, t: nat, phase: Phase): Cache
    requires t in c.threads
  {
    c.(threads := c.threads[t := c.threads[t].(phase := phase)])
  }

  function Pins(e: Entry, r: Revision): nat {
    if r in e.checkouts then e.checkouts[r].pins else 0
  }

  /** Taking over or publishing a directory makes it the entry's current one. */
  function Adopt(e: Entry, r: Revision): Entry {
    e.(checkouts := e.checkouts[r := Checkout(true, Pins(e, r))], current := r)
  }

  function Spoil(d: Dir): Dir { d.(whole := false) }

  function RemoveDir(c: Cache, place: (Key, Revision), how: Removal): Cache {
    if place !in c.dirs then c
    else match how
      case Removed => c.(dirs := c.dirs - {place})
      case Partly => c.(dirs := c.dirs[place := Spoil(c.dirs[place])])
  }

  /** Removing a whole entry, which may also fail halfway. */
  function RemoveAllOf(c: Cache, key: Key, how: Removal): Cache {
    match how
    case Removed => c.(dirs := map p | p in c.dirs && p.0 != key :: c.dirs[p], table := c.table - {key})
    case Partly => c.(dirs := map p | p in c.dirs :: if p.0 == key then Spoil(c.dirs[p]) else c.dirs[p])
  }

  function AddPin(e: Entry, r: Revision): Entry
    requires r in e.checkouts
  {
    e.(active := e.active + 1, checkouts := e.checkouts[r := e.checkouts[r].(pins := e.checkouts[r].pins + 1)])
  }

  function DropPin(e: Entry, r: Revision): Entry
    requires r in e.checkouts && e.active > 0 && e.checkouts[r].pins > 0
  {
    e.(active := e.active - 1, checkouts := e.checkouts[r := e.checkouts[r].(pins := e.checkouts[r].pins - 1)])
  }

  /** The first section of snapshot, when the key has an entry. */
  predicate CanEnter(c: Cache, t: nat, key: Key) {
    t !in c.used && key in c.table && c.table[key] in c.heap
  }

  function DoEnter(c: Cache, t: nat, key: Key): Cache
    requires CanEnter(c, t, key)
  {
    var e := c.table[key];
    SetEntry(c, e, c.heap[e].(active := c.heap[e].active + 1)).(threads := c.threads[t := Thread(e, Entered)], used := c.used + {t})
  }

  /** The same section when it has none: a new entry takes the key. */
  predicate CanCreate(c: Cache, t: nat, key: Key, e: nat) {
    t !in c.used && key !in c.table && e !in c.heap
  }

  function DoCreate(c: Cache, t: nat, key: Key, e: nat): Cache
    requires CanCreate(c, t, key, e)
  {
    SetEntry(c, e, NewEntry(key).(active := 1)).(table := c.table[key := e], threads := c.threads[t := Thread(e, Entered)], used := c.used + {t})
  }

  /** awaitRefresh, when a refresh is in flight that is not cancelled. */
  predicate CanJoin(c: Cache, t: nat) {
    At(c, t, Entered) && Ent(c, t).flight.Some? && Ent(c, t).flight.value in c.flights && !c.flights[Ent(c, t).flight.value].cancelled
  }

  function DoJoin(c: Cache, t: nat): Cache
    requires CanJoin(c, t)
  {
    var f := Ent(c, t).flight.value;
    SetPhase(c, t, Waiting(f)).(flights := c.flights[f := c.flights[f].(waiters := c.flights[f].waiters + 1)])
  }

  /** awaitRefresh, when none is in flight: a new one starts with this waiter. */
  predicate CanStart(c: Cache, t: nat, f: nat) {
    At(c, t, Entered) && Ent(c, t).flight.None? && f !in c.flights
  }

  function DoStart(c: Cache, t: nat, f: nat): Cache
    requires CanStart(c, t, f)
  {
    var e := c.threads[t].entry;
    SetEntry(SetPhase(c, t, Waiting(f)), e, c.heap[e].(flight := Some(f), active := c.heap[e].active + 1))
      .(flights := c.flights[f := Flight(e, 1, false, false, None)])
  }

  /** The end of waiting: the last waiter cancels the refresh. */
  predicate CanLeave(c: Cache, t: nat, ok: bool) {
    && t in c.threads && c.threads[t].phase.Waiting? && c.threads[t].phase.flight in c.flights
    && c.flights[c.threads[t].phase.flight].waiters > 0
    && (ok ==> c.flights[c.threads[t].phase.flight].done == Some(true))
  }

  function DoLeave(c: Cache, t: nat, ok: bool): Cache
    requires CanLeave(c, t, ok)
  {
    var f := c.threads[t].phase.flight;
    var v := c.flights[f];
    SetPhase(c, t, if ok then Refreshed else Leaving).(flights := c.flights[f := v.(waiters := v.waiters - 1, cancelled := v.cancelled || v.waiters == 1)])
  }

  predicate CanLockCaller(c: Cache, t: nat) {
    At(c, t, Refreshed) && Ent(c, t).lock.None?
  }

  function DoLockCaller(c: Cache, t: nat): Cache
    requires CanLockCaller(c, t)
  {
    SetPhase(SetEntry(c, c.threads[t].entry, Ent(c, t).(lock := Some(Caller(t)))), t, Holding)
  }

  /** Under the entry's lock: a directory verified before, or found intact by its checksum, is reused. */
  predicate CanChoose(c: Cache, t: nat, r: Revision) {
    HoldsLock(c, t) && Place(c, t, r) in c.dirs && (Verified(Ent(c, t), r) || c.dirs[Place(c, t, r)].whole)
  }

  function DoChoose(c: Cache, t: nat, r: Revision): Cache
    requires CanChoose(c, t, r)
  {
    SetPhase(SetEntry(c, c.threads[t].entry, Adopt(Ent(c, t), r)), t, Chosen(r))
  }

  /** An unverified directory that did not check out is removed. */
  predicate CanDiscard(c: Cache, t: nat, r: Revision, how: Removal) {
    HoldsLock(c, t) && Place(c, t, r) in c.dirs && !Verified(Ent(c, t), r) && !c.unproven
  }

  function DoDiscard(c: Cache, t: nat, r: Revision, how: Removal): Cache
    requires CanDiscard(c, t, r, how)
  {
    var e := Ent(c, t);
    RemoveDir(SetEntry(c, c.threads[t].entry, e.(checkouts := e.checkouts[r := Checkout(false, Pins(e, r))])), Place(c, t, r), how)
  }

  /** A new directory takes the revision's place. */
  predicate CanPublish(c: Cache, t: nat, r: Revision) {
    HoldsLock(c, t) && Place(c, t, r) !in c.dirs
  }

  function DoPublish(c: Cache, t: nat, r: Revision): Cache
    requires CanPublish(c, t, r)
  {
    SetPhase(SetEntry(c, c.threads[t].entry, Adopt(Ent(c, t), r)), t, Chosen(r))
      .(dirs := c.dirs[Place(c, t, r) := Dir(c.nextDir, true)], nextDir := c.nextDir + 1)
  }

  /** A checkout that fails leaves its record, unverified unless it was verified before, and perhaps a
      directory that it could not take away again; left says whether that one is whole. */
  predicate CanAbandon(c: Cache, t: nat, r: Revision, left: Option<bool>) {
    HoldsLock(c, t) && (left.Some? ==> Place(c, t, r) !in c.dirs)
  }

  function DoAbandon(c: Cache, t: nat, r: Revision, left: Option<bool>): Cache
    requires CanAbandon(c, t, r, left)
  {
    var e := Ent(c, t);
    var d := SetEntry(c, c.threads[t].entry, e.(checkouts := e.checkouts[r := Checkout(Verified(e, r), Pins(e, r))]));
    if left.None? then d
    else d.(dirs := c.dirs[Place(c, t, r) := Dir(c.nextDir, left.value)], nextDir := c.nextDir + 1)
  }

  /** pin, the section that makes a snapshot of the chosen directory. */
  predicate CanPin(c: Cache, t: nat, x: nat) {
    && t in c.threads && c.threads[t].phase.Chosen? && c.threads[t].entry in c.heap && x !in c.snaps
    && Place(c, t, c.threads[t].phase.revision) in c.dirs && c.threads[t].phase.revision in Ent(c, t).checkouts
  }

  function DoPin(c: Cache, t: nat, x: nat): Cache
    requires CanPin(c, t, x)
  {
    var e, r := Ent(c, t), c.threads[t].phase.revision;
    SetPhase(SetEntry(c, c.threads[t].entry, AddPin(e, r)), t, Holding)
      .(snaps := c.snaps[x := Snap(c.threads[t].entry, r, c.dirs[Place(c, t, r)].id, true, t)])
  }

  predicate CanUnlockCaller(c: Cache, t: nat) {
    At(c, t, Holding) && Ent(c, t).lock == Some(Caller(t))
  }

  function DoUnlockCaller(c: Cache, t: nat): Cache
    requires CanUnlockCaller(c, t)
  {
    SetPhase(SetEntry(c, c.threads[t].entry, Ent(c, t).(lock := None)), t, Leaving)
  }

  predicate CanTouch(c: Cache, t: nat, time: nat) {
    t in c.threads && c.threads[t].entry in c.heap
  }

  function DoTouch(c: Cache, t: nat, time: nat): Cache
    requires CanTouch(c, t, time)
  {
    SetEntry(c, c.threads[t].entry, Ent(c, t).(lastUsed := time))
  }

  /** The deferred last section of snapshot. */
  predicate CanExit(c: Cache, t: nat) {
    && t in c.threads && c.threads[t].entry in c.heap && Ent(c, t).active > 0
    && !c.threads[t].phase.Waiting? && !c.threads[t].phase.Holding? && !c.threads[t].phase.Chosen?
  }

  function DoExit(c: Cache, t: nat): Cache
    requires CanExit(c, t)
  {
    SetEntry(c, c.threads[t].entry, Ent(c, t).(active := Ent(c, t).active - 1)).(threads := c.threads - {t})
  }

  /** A deadline, shutdown, or the last waiter. */
  predicate CanCancel(c: Cache, f: nat) {
    f in c.flights
  }

  function DoCancel(c: Cache, f: nat): Cache
    requires CanCancel(c, f)
  {
    c.(flights := c.flights[f := c.flights[f].(cancelled := true)])
  }

  predicate CanLockRefresh(c: Cache, f: nat) {
    Running(c, f) && c.heap[c.flights[f].entry].lock.None?
  }

  function DoLockRefresh(c: Cache, f: nat): Cache
    requires CanLockRefresh(c, f)
  {
    SetEntry(c, c.flights[f].entry, c.heap[c.flights[f].entry].(lock := Some(Refresher(f)), valid := false))
  }

  predicate CanUnlockRefresh(c: Cache, f: nat, ok: bool) {
    Running(c, f) && c.heap[c.flights[f].entry].lock == Some(Refresher(f))
  }

  function DoUnlockRefresh(c: Cache, f: nat, ok: bool): Cache
    requires CanUnlockRefresh(c, f, ok)
  {
    SetEntry(c, c.flights[f].entry, c.heap[c.flights[f].entry].(lock := None, valid := ok))
      .(flights := c.flights[f := c.flights[f].(updated := ok)])
  }

  /** The last section of refresh. */
  predicate CanEndRefresh(c: Cache, f: nat) {
    Running(c, f) && c.heap[c.flights[f].entry].lock != Some(Refresher(f)) && c.heap[c.flights[f].entry].active > 0
  }

  function DoEndRefresh(c: Cache, f: nat): Cache
    requires CanEndRefresh(c, f)
  {
    var e := c.heap[c.flights[f].entry];
    SetEntry(c, c.flights[f].entry, e.(flight := None, active := e.active - 1))
      .(flights := c.flights[f := c.flights[f].(done := Some(c.flights[f].updated))])
  }

  /** The first section of closing a snapshot; pruning follows if the entry's lock is free. */
  predicate CanClose(c: Cache, x: nat) {
    && x in c.snaps && c.snaps[x].open && c.snaps[x].entry in c.heap && c.heap[c.snaps[x].entry].active > 0
    && c.snaps[x].revision in c.heap[c.snaps[x].entry].checkouts
    && c.heap[c.snaps[x].entry].checkouts[c.snaps[x].revision].pins > 0
  }

  function DoClose(c: Cache, x: nat): Cache
    requires CanClose(c, x)
  {
    SetEntry(c, c.snaps[x].entry, DropPin(c.heap[c.snaps[x].entry], c.snaps[x].revision))
      .(snaps := c.snaps[x := c.snaps[x].(open := false)])
  }

  predicate CanLockCloser(c: Cache, x: nat) {
    x in c.snaps && !c.snaps[x].open && c.snaps[x].entry in c.heap && c.heap[c.snaps[x].entry].lock.None?
  }

  function DoLockCloser(c: Cache, x: nat): Cache
    requires CanLockCloser(c, x)
  {
    SetEntry(c, c.snaps[x].entry, c.heap[c.snaps[x].entry].(lock := Some(Closer(x))))
  }

  predicate CanUnlockCloser(c: Cache, x: nat) {
    x in c.snaps && c.snaps[x].entry in c.heap && c.heap[c.snaps[x].entry].lock == Some(Closer(x))
  }

  function DoUnlockCloser(c: Cache, x: nat): Cache
    requires CanUnlockCloser(c, x)
  {
    SetEntry(c, c.snaps[x].entry, c.heap[c.snaps[x].entry].(lock := None))
  }

  /** pruneCheckouts for one revision; recordToo is false when only the checksum file could not be removed. */
  predicate CanPrune(c: Cache, e: nat, r: Revision, how: Removal, recordToo: bool) {
    && !c.unproven && Live(c, e) && c.heap[e].lock.Some?
    && r in c.heap[e].checkouts && r != c.heap[e].current && Unpinned(c.heap[e], r)
  }

  function DoPrune(c: Cache, e: nat, r: Revision, how: Removal, recordToo: bool): Cache
    requires CanPrune(c, e, r, how, recordToo)
  {
    var v := c.heap[e];
    RemoveDir(SetEntry(c, e, if how.Removed? && recordToo then v.(checkouts := v.checkouts - {r}) else v), (v.key, r), how)
  }

  /** reclaimSpaceLocked for one entry. */
  predicate CanEvict(c: Cache, e: nat, how: Removal) {
    !c.unproven && Live(c, e) && c.heap[e].active == 0
  }

  function DoEvict(c: Cache, e: nat, how: Removal): Cache
    requires CanEvict(c, e, how)
  {
    RemoveAllOf(c, c.heap[e].key, how)
  }

  /** From c to d by a step of snapshot outside the entry's lock. */
  predicate CallerTakes(c: Cache, s: Step, d: Cache) {
    match s
    case Enter(t, key) => CanEnter(c, t, key) && d == DoEnter(c, t, key)
    case Create(t, key, e) => CanCreate(c, t, key, e) && d == DoCreate(c, t, key, e)
    case Join(t) => CanJoin(c, t) && d == DoJoin(c, t)
    case Start(t, f) => CanStart(c, t, f) && d == DoStart(c, t, f)
    case Leave(t, ok) => CanLeave(c, t, ok) && d == DoLeave(c, t, ok)
    case Exit(t) => CanExit(c, t) && d == DoExit(c, t)
    case _ => false
  }

  /** By taking or leaving an entry's lock. */
  predicate LockTakes(c: Cache, s: Step, d: Cache) {
    match s
    case LockCaller(t) => CanLockCaller(c, t) && d == DoLockCaller(c, t)
    case UnlockCaller(t) => CanUnlockCaller(c, t) && d == DoUnlockCaller(c, t)
    case LockRefresh(f) => CanLockRefresh(c, f) && d == DoLockRefresh(c, f)
    case UnlockRefresh(f, ok) => CanUnlockRefresh(c, f, ok) && d == DoUnlockRefresh(c, f, ok)
    case LockCloser(x) => CanLockCloser(c, x) && d == DoLockCloser(c, x)
    case UnlockCloser(x) => CanUnlockCloser(c, x) && d == DoUnlockCloser(c, x)
    case Touch(t, time) => CanTouch(c, t, time) && d == DoTouch(c, t, time)
    case _ => false
  }

  /** By a step of checkout. */
  predicate CheckoutTakes(c: Cache, s: Step, d: Cache) {
    match s
    case Choose(t, r) => CanChoose(c, t, r) && d == DoChoose(c, t, r)
    case Discard(t, r, how) => CanDiscard(c, t, r, how) && d == DoDiscard(c, t, r, how)
    case Publish(t, r) => CanPublish(c, t, r) && d == DoPublish(c, t, r)
    case Abandon(t, r, left) => CanAbandon(c, t, r, left) && d == DoAbandon(c, t, r, left)
    case Pin(t, x) => CanPin(c, t, x) && d == DoPin(c, t, x)
    case _ => false
  }

  /** By any other step. */
  predicate RestTakes(c: Cache, s: Step, d: Cache) {
    match s
    case Cancel(f) => CanCancel(c, f) && d == DoCancel(c, f)
    case EndRefresh(f) => CanEndRefresh(c, f) && d == DoEndRefresh(c, f)
    case Close(x) => CanClose(c, x) && d == DoClose(c, x)
    case Prune(e, r, how, recordToo) => CanPrune(c, e, r, how, recordToo) && d == DoPrune(c, e, r, how, recordToo)
    case Evict(e, how) => CanEvict(c, e, how) && d == DoEvict(c, e, how)
    case Poison => d == c.(unproven := true)
    case _ => false
  }

  predicate Takes(c: Cache, s: Step, d: Cache) {
    CallerTakes(c, s, d) || LockTakes(c, s, d) || CheckoutTakes(c, s, d) || RestTakes(c, s, d)
  }
}

/** What every critical section of the repository cache keeps. */
module RepoCacheInvariant {
  import opened Common
  import opened Counting
  import opened RepoCache

  function OfEntry(e: nat): Thread -> bool { (t: Thread) => t.entry == e }

  function OpenOn(e: nat): Snap -> bool { (x: Snap) => x.open && x.entry == e }

  function OpenAt(e: nat, r: Revision): Snap -> bool { (x: Snap) => x.open && x.entry == e && x.revision == r }

  function WaitingOn(f: nat): Thread -> bool { (t: Thread) => t.phase == Waiting(f) }

  predicate WaitLink(c: Cache, t: nat)
    requires t in c.threads
  {
    var th := c.threads[t];
    t in c.used && th.entry in c.heap && (th.phase.Waiting? ==> th.phase.flight in c.flights && c.flights[th.phase.flight].entry == th.entry)
  }

  /** A caller in the entry's critical section holds its lock. */
  predicate LockLink(c: Cache, t: nat)
    requires t in c.threads
  {
    var th := c.threads[t];
    th.entry in c.heap && (th.phase.Holding? || th.phase.Chosen? ==> c.heap[th.entry].lock == Some(Caller(t)))
  }

  /** The directory a caller is about to pin is verified, current, and there. */
  predicate ChosenOk(c: Cache, t: nat)
    requires t in c.threads
  {
    var th := c.threads[t];
    th.entry in c.heap && var e := c.heap[th.entry];
    th.phase.Chosen? ==> e.current == th.phase.revision && Verified(e, th.phase.revision) && (e.key, th.phase.revision) in c.dirs
  }

  /** active is callers plus the running refresh plus open snapshots. */
  predicate ActiveOk(c: Cache, e: nat)
    requires e in c.heap
  {
    c.heap[e].active == Count(c.threads, OfEntry(e)) + One(c.heap[e].flight.Some?) + Count(c.snaps, OpenOn(e))
  }

  predicate PinsOk(c: Cache, e: nat, r: Revision)
    requires e in c.heap
  {
    Pins(c.heap[e], r) == Count(c.snaps, OpenAt(e, r))
  }

  /** An entry in use is the one its key names. */
  predicate LiveOk(c: Cache, e: nat)
    requires e in c.heap
  {
    c.heap[e].active > 0 ==> Live(c, e)
  }

  predicate FlightLink(c: Cache, e: nat)
    requires e in c.heap
  {
    c.heap[e].flight.Some? ==>
      var f := c.heap[e].flight.value;
      f in c.flights && c.flights[f].entry == e && c.flights[f].done.None?
  }

  /** A refresh that has not ended is its entry's flight, and has a waiter unless it is cancelled. */
  predicate FlightOk(c: Cache, f: nat)
    requires f in c.flights
  {
    var v := c.flights[f];
    && v.waiters == Count(c.threads, WaitingOn(f))
    && (v.done.None? ==> v.entry in c.heap && c.heap[v.entry].flight == Some(f))
    && (v.done.None? && !v.cancelled ==> v.waiters > 0)
  }

  /** The directory behind an open snapshot is where it was. */
  predicate SnapOk(c: Cache, x: nat)
    requires x in c.snaps
  {
    var v := c.snaps[x];
    && v.entry in c.heap && v.owner in c.used
    && (v.open ==>
          && Verified(c.heap[v.entry], v.revision)
          && (c.heap[v.entry].key, v.revision) in c.dirs && c.dirs[(c.heap[v.entry].key, v.revision)].id == v.dir)
  }

  predicate TableOk(c: Cache, key: Key)
    requires key in c.table
  {
    c.table[key] in c.heap && c.heap[c.table[key]].key == key
  }

  predicate DirOk(c: Cache, p: (Key, Revision))
    requires p in c.dirs
  {
    c.dirs[p].id < c.nextDir
  }

  ghost predicate ThreadInv(c: Cache) {
    && (forall t {:trigger WaitLink(c, t)} :: t in c.threads ==> WaitLink(c, t))
    && (forall t {:trigger LockLink(c, t)} :: t in c.threads ==> LockLink(c, t))
    && (forall t {:trigger ChosenOk(c, t)} :: t in c.threads ==> ChosenOk(c, t))
  }

  ghost predicate CountInv(c: Cache) {
    && (forall e {:trigger ActiveOk(c, e)} :: e in c.heap ==> ActiveOk(c, e))
    && (forall e, r {:trigger PinsOk(c, e, r)} :: e in c.heap ==> PinsOk(c, e, r))
    && (forall e {:trigger LiveOk(c, e)} :: e in c.heap ==> LiveOk(c, e))
    && (forall e {:trigger FlightLink(c, e)} :: e in c.heap ==> FlightLink(c, e))
    && (forall f {:trigger FlightOk(c, f)} :: f in c.flights ==> FlightOk(c, f))
  }

  ghost predicate DiskInv(c: Cache) {
    && (forall x {:trigger SnapOk(c, x)} :: x in c.snaps ==> SnapOk(c, x))
    && (forall k {:trigger TableOk(c, k)} :: k in c.table ==> TableOk(c, k))
    && (forall p {:trigger DirOk(c, p)} :: p in c.dirs ==> DirOk(c, p))
  }

  ghost predicate Inv(c: Cache) {
    ThreadInv(c) && CountInv(c) && DiskInv(c)
  }

  lemma {:induction false} CallerHolds(c: Cache, t: nat)
    requires Inv(c) && t in c.threads
    ensures c.threads[t].entry in c.heap && c.heap[c.threads[t].entry].active > 0 && Live(c, c.threads[t].entry)
  {
    var e := c.threads[t].entry;
    assert WaitLink(c, t) && ActiveOk(c, e) && LiveOk(c, e);
    CountPositive(c.threads, t, OfEntry(e));
  }

  lemma {:induction false} SnapHolds(c: Cache, x: nat)
    requires Inv(c) && x in c.snaps && c.snaps[x].open
    ensures var e := c.snaps[x].entry;
      e in c.heap && c.heap[e].active > 0 && Live(c, e) && Pins(c.heap[e], c.snaps[x].revision) > 0
  {
    var e := c.snaps[x].entry;
    assert SnapOk(c, x) && ActiveOk(c, e) && LiveOk(c, e) && PinsOk(c, e, c.snaps[x].revision);
    CountPositive(c.snaps, x, OpenOn(e));
    CountPositive(c.snaps, x, OpenAt(e, c.snaps[x].revision));
  }

  /** Nothing that is counted changes. */
  ghost predicate SameCounts(c: Cache, d: Cache) {
    && d.table == c.table && d.snaps == c.snaps && SameThreads(c, d) && d.heap.Keys == c.heap.Keys && d.flights.Keys == c.flights.Keys
    && (forall e :: e in c.heap ==> SameCounters(c.heap[e], d.heap[e]))
    && (forall f :: f in c.flights ==> SameFlight(c.flights[f], d.flights[f]))
  }

  ghost predicate SameThreads(c: Cache, d: Cache) {
    d.threads.Keys == c.threads.Keys && forall t :: t in c.threads ==> SameThread(c.threads[t], d.threads[t])
  }

  predicate SameThread(a: Thread, b: Thread) {
    a.entry == b.entry && (a.phase.Waiting? || b.phase.Waiting? ==> a.phase == b.phase)
  }

  ghost predicate SameCounters(a: Entry, b: Entry) {
    a.key == b.key && a.active == b.active && a.flight == b.flight && forall r :: Pins(a, r) == Pins(b, r)
  }

  predicate SameFlight(a: Flight, b: Flight) {
    a.entry == b.entry && a.waiters == b.waiters && a.done == b.done && (a.cancelled ==> b.cancelled)
  }

  lemma {:induction false} SameThreadCounts(c: Cache, d: Cache, n: nat)
    requires SameThreads(c, d)
    ensures Count(d.threads, OfEntry(n)) == Count(c.threads, OfEntry(n)) && Count(d.threads, WaitingOn(n)) == Count(c.threads, WaitingOn(n))
  {
    assert Those(d.threads, OfEntry(n)) == Those(c.threads, OfEntry(n));
    assert Those(d.threads, WaitingOn(n)) == Those(c.threads, WaitingOn(n));
  }

  lemma {:induction false} CountsCarry(c: Cache, d: Cache)
    requires CountInv(c) && SameCounts(c, d)
    ensures CountInv(d)
  {
    forall e | e in d.heap ensures ActiveOk(d, e) && LiveOk(d, e) && FlightLink(d, e) {
      assert ActiveOk(c, e) && LiveOk(c, e) && FlightLink(c, e) && SameCounters(c.heap[e], d.heap[e]);
      SameThreadCounts(c, d, e);
    }
    forall e, r | e in d.heap ensures PinsOk(d, e, r) {
      assert PinsOk(c, e, r) && SameCounters(c.heap[e], d.heap[e]);
    }
    forall f | f in d.flights ensures FlightOk(d, f) {
      assert FlightOk(c, f) && SameFlight(c.flights[f], d.flights[f]);
      SameThreadCounts(c, d, f);
      if d.flights[f].done.None? {
        assert SameCounters(c.heap[d.flights[f].entry], d.heap[d.flights[f].entry]);
      }
    }
  }

  /** No directory, key or opened snapshot changes, and what was verified stays verified. */
  ghost predicate SameDisk(c: Cache, d: Cache) {
    && d.table == c.table && d.dirs == c.dirs && d.nextDir == c.nextDir && c.used <= d.used
    && (forall e :: e in c.heap ==> e in d.heap && StillVerified(c.heap[e], d.heap[e]))
    && (forall x :: x in d.snaps ==> x in c.snaps && SameSnap(c.snaps[x], d.snaps[x]))
  }

  ghost predicate StillVerified(a: Entry, b: Entry) {
    a.key == b.key && forall r :: Verified(a, r) ==> Verified(b, r)
  }

  predicate SameSnap(a: Snap, b: Snap) {
    a.entry == b.entry && a.revision == b.revision && a.dir == b.dir && a.owner == b.owner && (b.open ==> a.open)
  }

  lemma {:induction false} DiskCarries(c: Cache, d: Cache)
    requires DiskInv(c) && SameDisk(c, d)
    ensures DiskInv(d)
  {
    forall x | x in d.snaps ensures SnapOk(d, x) {
      assert SnapOk(c, x) && SameSnap(c.snaps[x], d.snaps[x]);
      assert StillVerified(c.heap[c.snaps[x].entry], d.heap[c.snaps[x].entry]);
    }
    forall k | k in d.table ensures TableOk(d, k) {
      assert TableOk(c, k) && StillVerified(c.heap[c.table[k]], d.heap[c.table[k]]);
    }
    forall p | p in d.dirs ensures DirOk(d, p) {
      assert DirOk(c, p);
    }
  }

  lemma {:induction false} LockCallerKeeps(c: Cache, t: nat)
    requires Inv(c) && CanLockCaller(c, t)
    ensures Inv(DoLockCaller(c, t))
  {
    CountsCarry(c, DoLockCaller(c, t));
    DiskCarries(c, DoLockCaller(c, t));
    LockCallerKeepsThreads(c, t);
  }

  lemma {:induction false} LockCallerKeepsThreads(c: Cache, t: nat)
    requires Inv(c) && CanLockCaller(c, t)
    ensures ThreadInv(DoLockCaller(c, t))
  {
    var d := DoLockCaller(c, t);
    forall u | u in d.threads ensures WaitLink(d, u) && LockLink(d, u) && ChosenOk(d, u) {
      assert WaitLink(c, u) && LockLink(c, u) && ChosenOk(c, u);
    }
  }

  lemma {:induction false} UnlockCallerKeeps(c: Cache, t: nat)
    requires Inv(c) && CanUnlockCaller(c, t)
    ensures Inv(DoUnlockCaller(c, t))
  {
    CountsCarry(c, DoUnlockCaller(c, t));
    DiskCarries(c, DoUnlockCaller(c, t));
    UnlockCallerKeepsThreads(c, t);
  }

  lemma {:induction false} UnlockCallerKeepsThreads(c: Cache, t: nat)
    requires Inv(c) && CanUnlockCaller(c, t)
    ensures ThreadInv(DoUnlockCaller(c, t))
  {
    var d := DoUnlockCaller(c, t);
    forall u | u in d.threads ensures WaitLink(d, u) && LockLink(d, u) && ChosenOk(d, u) {
      assert WaitLink(c, u) && LockLink(c, u) && ChosenOk(c, u);
    }
  }

  lemma {:induction false} TouchKeeps(c: Cache, t: nat, time: nat)
    requires Inv(c) && CanTouch(c, t, time)
    ensures Inv(DoTouch(c, t, time))
  {
    var d := DoTouch(c, t, time);
    CountsCarry(c, d);
    DiskCarries(c, d);
    forall u | u in d.threads ensures WaitLink(d, u) && LockLink(d, u) && ChosenOk(d, u) {
      assert WaitLink(c, u) && LockLink(c, u) && ChosenOk(c, u);
    }
  }

  lemma {:induction false} CancelKeeps(c: Cache, f: nat)
    requires Inv(c) && CanCancel(c, f)
    ensures Inv(DoCancel(c, f))
  {
    var d := DoCancel(c, f);
    CountsCarry(c, d);
    DiskCarries(c, d);
    forall u | u in d.threads ensures WaitLink(d, u) && LockLink(d, u) && ChosenOk(d, u) {
      assert WaitLink(c, u) && LockLink(c, u) && ChosenOk(c, u);
    }
  }

  lemma {:induction false} LockRefreshKeeps(c: Cache, f: nat)
    requires Inv(c) && CanLockRefresh(c, f)
    ensures Inv(DoLockRefresh(c, f))
  {
    var d := DoLockRefresh(c, f);
    CountsCarry(c, d);
    DiskCarries(c, d);
    forall u | u in d.threads ensures WaitLink(d, u) && LockLink(d, u) && ChosenOk(d, u) {
      assert WaitLink(c, u) && LockLink(c, u) && ChosenOk(c, u);
    }
  }

  lemma {:induction false} UnlockRefreshKeeps(c: Cache, f: nat, ok: bool)
    requires Inv(c) && CanUnlockRefresh(c, f, ok)
    ensures Inv(DoUnlockRefresh(c, f, ok))
  {
    var d := DoUnlockRefresh(c, f, ok);
    CountsCarry(c, d);
    DiskCarries(c, d);
    forall u | u in d.threads ensures WaitLink(d, u) && LockLink(d, u) && ChosenOk(d, u) {
      assert WaitLink(c, u) && LockLink(c, u) && ChosenOk(c, u);
    }
  }

  lemma {:induction false} LockCloserKeeps(c: Cache, x: nat)
    requires Inv(c) && CanLockCloser(c, x)
    ensures Inv(DoLockCloser(c, x))
  {
    var d := DoLockCloser(c, x);
    CountsCarry(c, d);
    DiskCarries(c, d);
    forall u | u in d.threads ensures WaitLink(d, u) && LockLink(d, u) && ChosenOk(d, u) {
      assert WaitLink(c, u) && LockLink(c, u) && ChosenOk(c, u);
    }
  }

  lemma {:induction false} UnlockCloserKeeps(c: Cache, x: nat)
    requires Inv(c) && CanUnlockCloser(c, x)
    ensures Inv(DoUnlockCloser(c, x))
  {
    var d := DoUnlockCloser(c, x);
    CountsCarry(c, d);
    DiskCarries(c, d);
    forall u | u in d.threads ensures WaitLink(d, u) && LockLink(d, u) && ChosenOk(d, u) {
      assert WaitLink(c, u) && LockLink(c, u) && ChosenOk(c, u);
    }
  }

  lemma {:induction false} ChooseKeeps(c: Cache, t: nat, r: Revision)
    requires Inv(c) && CanChoose(c, t, r)
    ensures Inv(DoChoose(c, t, r))
  {
    ChooseKeepsCounts(c, t, r);
    ChooseKeepsDisk(c, t, r);
    ChooseKeepsThreads(c, t, r);
  }

  lemma {:induction false} ChooseKeepsCounts(c: Cache, t: nat, r: Revision)
    requires Inv(c) && CanChoose(c, t, r)
    ensures CountInv(DoChoose(c, t, r))
  {
    CountsCarry(c, DoChoose(c, t, r));
  }

  lemma {:induction false} ChooseKeepsDisk(c: Cache, t: nat, r: Revision)
    requires Inv(c) && CanChoose(c, t, r)
    ensures DiskInv(DoChoose(c, t, r))
  {
    DiskCarries(c, DoChoose(c, t, r));
  }

  lemma {:induction false} ChooseKeepsThreads(c: Cache, t: nat, r: Revision)
    requires Inv(c) && CanChoose(c, t, r)
    ensures ThreadInv(DoChoose(c, t, r))
  {
    var d := DoChoose(c, t, r);
    assert WaitLink(c, t) && LockLink(c, t);
    forall u | u in d.threads ensures WaitLink(d, u) && LockLink(d, u) && ChosenOk(d, u) {
      assert u in c.threads ==> WaitLink(c, u) && LockLink(c, u) && ChosenOk(c, u);
    }
  }

  lemma {:induction false} PublishKeeps(c: Cache, t: nat, r: Revision)
    requires Inv(c) && CanPublish(c, t, r)
    ensures Inv(DoPublish(c, t, r))
  {
    CountsCarry(c, DoPublish(c, t, r));
    PublishKeepsDisk(c, t, r);
    PublishKeepsThreads(c, t, r);
  }

  lemma {:induction false} PublishKeepsDisk(c: Cache, t: nat, r: Revision)
    requires Inv(c) && CanPublish(c, t, r)
    ensures DiskInv(DoPublish(c, t, r))
  {
    var d := DoPublish(c, t, r);
    forall x | x in d.snaps ensures SnapOk(d, x) {
      assert SnapOk(c, x);
    }
    forall k | k in d.table ensures TableOk(d, k) {
      assert TableOk(c, k);
    }
    forall p | p in d.dirs ensures DirOk(d, p) {
      assert p in c.dirs ==> DirOk(c, p);
    }
  }

  lemma {:induction false} PublishKeepsThreads(c: Cache, t: nat, r: Revision)
    requires Inv(c) && CanPublish(c, t, r)
    ensures ThreadInv(DoPublish(c, t, r))
  {
    var d := DoPublish(c, t, r);
    assert LockLink(c, t);
    forall u | u in d.threads ensures WaitLink(d, u) && LockLink(d, u) && ChosenOk(d, u) {
      assert u in c.threads ==> WaitLink(c, u) && LockLink(c, u) && ChosenOk(c, u);
    }
  }

  lemma {:induction false} AbandonKeeps(c: Cache, t: nat, r: Revision, left: Option<bool>)
    requires Inv(c) && CanAbandon(c, t, r, left)
    ensures Inv(DoAbandon(c, t, r, left))
  {
    CountsCarry(c, DoAbandon(c, t, r, left));
    AbandonKeepsDisk(c, t, r, left);
    AbandonKeepsThreads(c, t, r, left);
  }

  lemma {:induction false} AbandonKeepsDisk(c: Cache, t: nat, r: Revision, left: Option<bool>)
    requires Inv(c) && CanAbandon(c, t, r, left)
    ensures DiskInv(DoAbandon(c, t, r, left))
  {
    var d := DoAbandon(c, t, r, left);
    forall x | x in d.snaps ensures SnapOk(d, x) {
      assert SnapOk(c, x);
    }
    forall k | k in d.table ensures TableOk(d, k) {
      assert TableOk(c, k);
    }
    forall p | p in d.dirs ensures DirOk(d, p) {
      assert p in c.dirs ==> DirOk(c, p);
    }
  }

  lemma {:induction false} AbandonKeepsThreads(c: Cache, t: nat, r: Revision, left: Option<bool>)
    requires Inv(c) && CanAbandon(c, t, r, left)
    ensures ThreadInv(DoAbandon(c, t, r, left))
  {
    var d := DoAbandon(c, t, r, left);
    forall u | u in d.threads ensures WaitLink(d, u) && LockLink(d, u) && ChosenOk(d, u) {
      assert WaitLink(c, u) && LockLink(c, u) && ChosenOk(c, u);
    }
  }

  lemma {:induction false} DiscardKeeps(c: Cache, t: nat, r: Revision, how: Removal)
    requires Inv(c) && CanDiscard(c, t, r, how)
    ensures Inv(DoDiscard(c, t, r, how))
  {
    DiscardKeepsCounts(c, t, r, how);
    DiscardKeepsDisk(c, t, r, how);
    DiscardKeepsThreads(c, t, r, how);
  }

  lemma {:induction false} DiscardKeepsCounts(c: Cache, t: nat, r: Revision, how: Removal)
    requires Inv(c) && CanDiscard(c, t, r, how)
    ensures CountInv(DoDiscard(c, t, r, how))
  {
    CountsCarry(c, DoDiscard(c, t, r, how));
  }

  lemma {:induction false} DiscardKeepsDisk(c: Cache, t: nat, r: Revision, how: Removal)
    requires Inv(c) && CanDiscard(c, t, r, how)
    ensures DiskInv(DoDiscard(c, t, r, how))
  {
    var d := DoDiscard(c, t, r, how);
    CallerHolds(c, t);
    forall x | x in d.snaps ensures SnapOk(d, x) {
      assert SnapOk(c, x);
      if d.snaps[x].open {
        SnapHolds(c, x);
        assert c.heap[c.snaps[x].entry].key == c.heap[c.threads[t].entry].key ==> c.snaps[x].entry == c.threads[t].entry;
      }
    }
    forall k | k in d.table ensures TableOk(d, k) {
      assert TableOk(c, k);
    }
    forall p | p in d.dirs ensures DirOk(d, p) {
      assert p in c.dirs ==> DirOk(c, p);
    }
  }

  lemma {:induction false} DiscardKeepsThreads(c: Cache, t: nat, r: Revision, how: Removal)
    requires Inv(c) && CanDiscard(c, t, r, how)
    ensures ThreadInv(DoDiscard(c, t, r, how))
  {
    var d := DoDiscard(c, t, r, how);
    CallerHolds(c, t);
    forall u | u in d.threads ensures WaitLink(d, u) && LockLink(d, u) && ChosenOk(d, u) {
      assert u in c.threads ==> WaitLink(c, u) && LockLink(c, u) && ChosenOk(c, u);
      CallerHolds(c, u);
      assert c.heap[c.threads[u].entry].key == c.heap[c.threads[t].entry].key ==> c.threads[u].entry == c.threads[t].entry;
    }
  }

  lemma {:induction false} PruneKeeps(c: Cache, e: nat, r: Revision, how: Removal, recordToo: bool)
    requires Inv(c) && CanPrune(c, e, r, how, recordToo)
    ensures Inv(DoPrune(c, e, r, how, recordToo))
  {
    PruneKeepsCounts(c, e, r, how, recordToo);
    PruneKeepsDisk(c, e, r, how, recordToo);
    PruneKeepsThreads(c, e, r, how, recordToo);
  }

  lemma {:induction false} PruneKeepsCounts(c: Cache, e: nat, r: Revision, how: Removal, recordToo: bool)
    requires Inv(c) && CanPrune(c, e, r, how, recordToo)
    ensures CountInv(DoPrune(c, e, r, how, recordToo))
  {
    CountsCarry(c, DoPrune(c, e, r, how, recordToo));
  }

  lemma {:induction false} PruneKeepsDisk(c: Cache, e: nat, r: Revision, how: Removal, recordToo: bool)
    requires Inv(c) && CanPrune(c, e, r, how, recordToo)
    ensures DiskInv(DoPrune(c, e, r, how, recordToo))
  {
    var d := DoPrune(c, e, r, how, recordToo);
    forall x | x in d.snaps ensures SnapOk(d, x) {
      assert SnapOk(c, x);
      if d.snaps[x].open {
        SnapHolds(c, x);
        assert c.heap[c.snaps[x].entry].key == c.heap[e].key ==> c.snaps[x].entry == e;
      }
    }
    forall k | k in d.table ensures TableOk(d, k) {
      assert TableOk(c, k);
    }
    forall p | p in d.dirs ensures DirOk(d, p) {
      assert p in c.dirs ==> DirOk(c, p);
    }
  }

  lemma {:induction false} PruneKeepsThreads(c: Cache, e: nat, r: Revision, how: Removal, recordToo: bool)
    requires Inv(c) && CanPrune(c, e, r, how, recordToo)
    ensures ThreadInv(DoPrune(c, e, r, how, recordToo))
  {
    var d := DoPrune(c, e, r, how, recordToo);
    forall u | u in d.threads ensures WaitLink(d, u) && LockLink(d, u) && ChosenOk(d, u) {
      assert u in c.threads ==> WaitLink(c, u) && LockLink(c, u) && ChosenOk(c, u);
      CallerHolds(c, u);
      assert c.heap[c.threads[u].entry].key == c.heap[e].key ==> c.threads[u].entry == e;
    }
  }

  lemma {:induction false} EvictKeeps(c: Cache, e: nat, how: Removal)
    requires Inv(c) && CanEvict(c, e, how)
    ensures Inv(DoEvict(c, e, how))
  {
    EvictKeepsDisk(c, e, how);
    EvictKeepsThreads(c, e, how);
    var d := DoEvict(c, e, how);
    forall g | g in d.heap ensures ActiveOk(d, g) && LiveOk(d, g) && FlightLink(d, g) {
      assert ActiveOk(c, g) && LiveOk(c, g) && FlightLink(c, g);
    }
    forall g, q | g in d.heap ensures PinsOk(d, g, q) {
      assert PinsOk(c, g, q);
    }
    forall f | f in d.flights ensures FlightOk(d, f) {
      assert FlightOk(c, f);
    }
  }

  lemma {:induction false} EvictKeepsDisk(c: Cache, e: nat, how: Removal)
    requires Inv(c) && CanEvict(c, e, how)
    ensures DiskInv(DoEvict(c, e, how))
  {
    var d := DoEvict(c, e, how);
    forall x | x in d.snaps ensures SnapOk(d, x) {
      assert x in c.snaps ==> SnapOk(c, x);
      if d.snaps[x].open {
        SnapHolds(c, x);
        assert c.heap[c.snaps[x].entry].key != c.heap[e].key;
      }
    }
    forall k | k in d.table ensures TableOk(d, k) {
      assert k in c.table ==> TableOk(c, k);
    }
    forall p | p in d.dirs ensures DirOk(d, p) {
      assert p in c.dirs ==> DirOk(c, p);
    }
  }

  lemma {:induction false} EvictKeepsThreads(c: Cache, e: nat, how: Removal)
    requires Inv(c) && CanEvict(c, e, how)
    ensures ThreadInv(DoEvict(c, e, how))
  {
    var d := DoEvict(c, e, how);
    forall u | u in d.threads ensures WaitLink(d, u) && LockLink(d, u) && ChosenOk(d, u) {
      assert u in c.threads ==> WaitLink(c, u) && LockLink(c, u) && ChosenOk(c, u);
      CallerHolds(c, u);
      assert c.heap[c.threads[u].entry].key != c.heap[e].key;
    }
  }

  lemma {:induction false} PinKeeps(c: Cache, t: nat, x: nat)
    requires Inv(c) && CanPin(c, t, x)
    ensures Inv(DoPin(c, t, x))
  {
    PinKeepsCounts(c, t, x);
    var d := DoPin(c, t, x);
    assert WaitLink(c, t) && LockLink(c, t) && ChosenOk(c, t);
    forall u | u in d.threads ensures WaitLink(d, u) && LockLink(d, u) && ChosenOk(d, u) {
      assert u in c.threads ==> WaitLink(c, u) && LockLink(c, u) && ChosenOk(c, u);
    }
    forall x | x in d.snaps ensures SnapOk(d, x) {
      assert x in c.snaps ==> SnapOk(c, x);
    }
    forall k | k in d.table ensures TableOk(d, k) {
      assert k in c.table ==> TableOk(c, k);
    }
    forall p | p in d.dirs ensures DirOk(d, p) {
      assert p in c.dirs ==> DirOk(c, p);
    }
  }

  lemma {:induction false} PinKeepsCounts(c: Cache, t: nat, x: nat)
    requires Inv(c) && CanPin(c, t, x)
    ensures CountInv(DoPin(c, t, x))
  {
    var d := DoPin(c, t, x);
    CallerHolds(c, t);
    assert SameThreads(c, d);
    forall e | e in d.heap ensures ActiveOk(d, e) && LiveOk(d, e) && FlightLink(d, e) {
      assert e in c.heap ==> ActiveOk(c, e) && LiveOk(c, e) && FlightLink(c, e);
      SameThreadCounts(c, d, e);
      CountSet(c.snaps, x, d.snaps[x], OpenOn(e));
    }
    PinKeepsPins(c, t, x);
    forall f | f in d.flights ensures FlightOk(d, f) {
      assert f in c.flights ==> FlightOk(c, f);
      SameThreadCounts(c, d, f);
    }
  }

  lemma {:induction false} PinKeepsPins(c: Cache, t: nat, x: nat)
    requires Inv(c) && CanPin(c, t, x)
    ensures forall e, q {:trigger PinsOk(DoPin(c, t, x), e, q)} :: e in DoPin(c, t, x).heap ==> PinsOk(DoPin(c, t, x), e, q)
  {
    var d := DoPin(c, t, x);
    forall e, q | e in d.heap ensures PinsOk(d, e, q) {
      assert WaitLink(c, t);
      assert e in c.heap ==> PinsOk(c, e, q);
      CountSet(c.snaps, x, d.snaps[x], OpenAt(e, q));
    }
  }

  lemma {:induction false} CloseKeeps(c: Cache, x: nat)
    requires Inv(c) && CanClose(c, x)
    ensures Inv(DoClose(c, x))
  {
    CloseKeepsCounts(c, x);
    var d := DoClose(c, x);
    DiskCarries(c, d);
    forall u | u in d.threads ensures WaitLink(d, u) && LockLink(d, u) && ChosenOk(d, u) {
      assert u in c.threads ==> WaitLink(c, u) && LockLink(c, u) && ChosenOk(c, u);
    }
  }

  lemma {:induction false} CloseKeepsCounts(c: Cache, x: nat)
    requires Inv(c) && CanClose(c, x)
    ensures CountInv(DoClose(c, x))
  {
    var d := DoClose(c, x);
    forall e | e in d.heap ensures ActiveOk(d, e) && LiveOk(d, e) && FlightLink(d, e) {
      assert e in c.heap ==> ActiveOk(c, e) && LiveOk(c, e) && FlightLink(c, e);
      CountSet(c.snaps, x, d.snaps[x], OpenOn(e));
    }
    forall e, q | e in d.heap ensures PinsOk(d, e, q) {
      assert e in c.heap ==> PinsOk(c, e, q);
      CountSet(c.snaps, x, d.snaps[x], OpenAt(e, q));
    }
    forall f | f in d.flights ensures FlightOk(d, f) {
      assert f in c.flights ==> FlightOk(c, f);
    }
  }

  lemma {:induction false} ExitKeeps(c: Cache, t: nat)
    requires Inv(c) && CanExit(c, t)
    ensures Inv(DoExit(c, t))
  {
    ExitKeepsCounts(c, t);
    var d := DoExit(c, t);
    DiskCarries(c, d);
    forall u | u in d.threads ensures WaitLink(d, u) && LockLink(d, u) && ChosenOk(d, u) {
      assert u in c.threads ==> WaitLink(c, u) && LockLink(c, u) && ChosenOk(c, u);
    }
  }

  lemma {:induction false} ExitKeepsCounts(c: Cache, t: nat)
    requires Inv(c) && CanExit(c, t)
    ensures CountInv(DoExit(c, t))
  {
    var d := DoExit(c, t);
    forall e | e in d.heap ensures ActiveOk(d, e) && LiveOk(d, e) && FlightLink(d, e) {
      assert e in c.heap ==> ActiveOk(c, e) && LiveOk(c, e) && FlightLink(c, e);
      CountDrop(c.threads, t, OfEntry(e));
    }
    forall e, q | e in d.heap ensures PinsOk(d, e, q) {
      assert e in c.heap ==> PinsOk(c, e, q);
    }
    forall f | f in d.flights ensures FlightOk(d, f) {
      assert f in c.flights ==> FlightOk(c, f);
      CountDrop(c.threads, t, WaitingOn(f));
    }
  }

  lemma {:induction false} EndRefreshKeeps(c: Cache, f: nat)
    requires Inv(c) && CanEndRefresh(c, f)
    ensures Inv(DoEndRefresh(c, f))
  {
    EndRefreshKeepsCounts(c, f);
    var d := DoEndRefresh(c, f);
    DiskCarries(c, d);
    forall u | u in d.threads ensures WaitLink(d, u) && LockLink(d, u) && ChosenOk(d, u) {
      assert u in c.threads ==> WaitLink(c, u) && LockLink(c, u) && ChosenOk(c, u);
    }
  }

  lemma {:induction false} EndRefreshKeepsCounts(c: Cache, f: nat)
    requires Inv(c) && CanEndRefresh(c, f)
    ensures CountInv(DoEndRefresh(c, f))
  {
    var d := DoEndRefresh(c, f);
    assert FlightOk(c, f);
    forall e | e in d.heap ensures ActiveOk(d, e) && LiveOk(d, e) && FlightLink(d, e) {
      assert e in c.heap ==> ActiveOk(c, e) && LiveOk(c, e) && FlightLink(c, e);
    }
    forall e, q | e in d.heap ensures PinsOk(d, e, q) {
      assert e in c.heap ==> PinsOk(c, e, q);
    }
    forall g | g in d.flights ensures FlightOk(d, g) {
      assert FlightOk(c, g);
    }
  }

  lemma {:induction false} LeaveKeeps(c: Cache, t: nat, ok: bool)
    requires Inv(c) && CanLeave(c, t, ok)
    ensures Inv(DoLeave(c, t, ok))
  {
    LeaveKeepsCounts(c, t, ok);
    var d := DoLeave(c, t, ok);
    DiskCarries(c, d);
    forall u | u in d.threads ensures WaitLink(d, u) && LockLink(d, u) && ChosenOk(d, u) {
      assert u in c.threads ==> WaitLink(c, u) && LockLink(c, u) && ChosenOk(c, u);
    }
  }

  lemma {:induction false} LeaveKeepsCounts(c: Cache, t: nat, ok: bool)
    requires Inv(c) && CanLeave(c, t, ok)
    ensures CountInv(DoLeave(c, t, ok))
  {
    var d := DoLeave(c, t, ok);
    forall e | e in d.heap ensures ActiveOk(d, e) && LiveOk(d, e) && FlightLink(d, e) {
      assert e in c.heap ==> ActiveOk(c, e) && LiveOk(c, e) && FlightLink(c, e);
      CountSet(c.threads, t, d.threads[t], OfEntry(e));
    }
    forall e, q | e in d.heap ensures PinsOk(d, e, q) {
      assert e in c.heap ==> PinsOk(c, e, q);
    }
    forall f | f in d.flights ensures FlightOk(d, f) {
      assert f in c.flights ==> FlightOk(c, f);
      CountSet(c.threads, t, d.threads[t], WaitingOn(f));
    }
  }

  lemma {:induction false} JoinKeeps(c: Cache, t: nat)
    requires Inv(c) && CanJoin(c, t)
    ensures Inv(DoJoin(c, t))
  {
    JoinKeepsCounts(c, t);
    var d := DoJoin(c, t);
    DiskCarries(c, d);
    assert WaitLink(c, t) && FlightLink(c, c.threads[t].entry);
    forall u | u in d.threads ensures WaitLink(d, u) && LockLink(d, u) && ChosenOk(d, u) {
      assert u in c.threads ==> WaitLink(c, u) && LockLink(c, u) && ChosenOk(c, u);
    }
  }

  lemma {:induction false} JoinKeepsCounts(c: Cache, t: nat)
    requires Inv(c) && CanJoin(c, t)
    ensures CountInv(DoJoin(c, t))
  {
    var d := DoJoin(c, t);
    forall e | e in d.heap ensures ActiveOk(d, e) && LiveOk(d, e) && FlightLink(d, e) {
      assert e in c.heap ==> ActiveOk(c, e) && LiveOk(c, e) && FlightLink(c, e);
      CountSet(c.threads, t, d.threads[t], OfEntry(e));
    }
    forall e, q | e in d.heap ensures PinsOk(d, e, q) {
      assert e in c.heap ==> PinsOk(c, e, q);
    }
    forall f | f in d.flights ensures FlightOk(d, f) {
      assert f in c.flights ==> FlightOk(c, f);
      CountSet(c.threads, t, d.threads[t], WaitingOn(f));
    }
  }

  lemma {:induction false} StartKeeps(c: Cache, t: nat, f: nat)
    requires Inv(c) && CanStart(c, t, f)
    ensures Inv(DoStart(c, t, f))
  {
    StartKeepsCounts(c, t, f);
    var d := DoStart(c, t, f);
    DiskCarries(c, d);
    assert WaitLink(c, t);
    forall u | u in d.threads ensures WaitLink(d, u) && LockLink(d, u) && ChosenOk(d, u) {
      assert u in c.threads ==> WaitLink(c, u) && LockLink(c, u) && ChosenOk(c, u);
    }
  }

  lemma {:induction false} StartKeepsCounts(c: Cache, t: nat, f: nat)
    requires Inv(c) && CanStart(c, t, f)
    ensures CountInv(DoStart(c, t, f))
  {
    var d := DoStart(c, t, f);
    CallerHolds(c, t);
    NobodyWaits(c, f);
    forall e | e in d.heap ensures ActiveOk(d, e) && LiveOk(d, e) && FlightLink(d, e) {
      assert e in c.heap ==> ActiveOk(c, e) && LiveOk(c, e) && FlightLink(c, e);
      CountSet(c.threads, t, d.threads[t], OfEntry(e));
    }
    forall e, q | e in d.heap ensures PinsOk(d, e, q) {
      assert e in c.heap ==> PinsOk(c, e, q);
    }
    forall g | g in d.flights ensures FlightOk(d, g) {
      assert g in c.flights ==> FlightOk(c, g);
      CountSet(c.threads, t, d.threads[t], WaitingOn(g));
    }
  }

  lemma {:induction false} NobodyWaits(c: Cache, f: nat)
    requires Inv(c) && f !in c.flights
    ensures Count(c.threads, WaitingOn(f)) == 0
  {
    forall t | t in c.threads ensures c.threads[t].phase != Waiting(f) {
      assert WaitLink(c, t);
    }
    CountZero(c.threads, WaitingOn(f));
  }

  lemma {:induction false} EnterKeeps(c: Cache, t: nat, key: Key)
    requires Inv(c) && CanEnter(c, t, key)
    ensures Inv(DoEnter(c, t, key))
  {
    EnterKeepsCounts(c, t, key);
    var d := DoEnter(c, t, key);
    DiskCarries(c, d);
    forall u | u in d.threads ensures WaitLink(d, u) && LockLink(d, u) && ChosenOk(d, u) {
      assert u in c.threads ==> WaitLink(c, u) && LockLink(c, u) && ChosenOk(c, u);
    }
  }

  lemma {:induction false} EnterKeepsCounts(c: Cache, t: nat, key: Key)
    requires Inv(c) && CanEnter(c, t, key)
    ensures CountInv(DoEnter(c, t, key))
  {
    var d := DoEnter(c, t, key);
    assert TableOk(c, key);
    assert t in c.threads ==> WaitLink(c, t);
    forall e | e in d.heap ensures ActiveOk(d, e) && LiveOk(d, e) && FlightLink(d, e) {
      assert e in c.heap ==> ActiveOk(c, e) && LiveOk(c, e) && FlightLink(c, e);
      CountSet(c.threads, t, d.threads[t], OfEntry(e));
    }
    forall e, q | e in d.heap ensures PinsOk(d, e, q) {
      assert e in c.heap ==> PinsOk(c, e, q);
    }
    forall f | f in d.flights ensures FlightOk(d, f) {
      assert f in c.flights ==> FlightOk(c, f);
      CountSet(c.threads, t, d.threads[t], WaitingOn(f));
    }
  }

  lemma {:induction false} CreateKeeps(c: Cache, t: nat, key: Key, n: nat)
    requires Inv(c) && CanCreate(c, t, key, n)
    ensures Inv(DoCreate(c, t, key, n))
  {
    CreateKeepsCounts(c, t, key, n);
    var d := DoCreate(c, t, key, n);
    forall u | u in d.threads ensures WaitLink(d, u) && LockLink(d, u) && ChosenOk(d, u) {
      assert u in c.threads ==> WaitLink(c, u) && LockLink(c, u) && ChosenOk(c, u);
    }
    forall x | x in d.snaps ensures SnapOk(d, x) {
      assert x in c.snaps ==> SnapOk(c, x);
    }
    forall k | k in d.table ensures TableOk(d, k) {
      assert k in c.table ==> TableOk(c, k);
    }
    forall p | p in d.dirs ensures DirOk(d, p) {
      assert p in c.dirs ==> DirOk(c, p);
    }
  }

  lemma {:induction false} CreateKeepsCounts(c: Cache, t: nat, key: Key, n: nat)
    requires Inv(c) && CanCreate(c, t, key, n)
    ensures CountInv(DoCreate(c, t, key, n))
  {
    var d := DoCreate(c, t, key, n);
    NobodyUses(c, n);
    assert t in c.threads ==> WaitLink(c, t);
    forall e | e in d.heap ensures ActiveOk(d, e) && LiveOk(d, e) && FlightLink(d, e) {
      assert e in c.heap ==> ActiveOk(c, e) && LiveOk(c, e) && FlightLink(c, e);
      CountSet(c.threads, t, d.threads[t], OfEntry(e));
    }
    forall e, q | e in d.heap ensures PinsOk(d, e, q) {
      assert e in c.heap ==> PinsOk(c, e, q);
      if e == n {
        NobodyOpened(c, e, q);
      }
    }
    forall f | f in d.flights ensures FlightOk(d, f) {
      assert f in c.flights ==> FlightOk(c, f);
      CountSet(c.threads, t, d.threads[t], WaitingOn(f));
    }
  }

  lemma {:induction false} NobodyUses(c: Cache, e: nat)
    requires Inv(c) && e !in c.heap
    ensures Count(c.threads, OfEntry(e)) == 0 && Count(c.snaps, OpenOn(e)) == 0
  {
    forall t | t in c.threads ensures c.threads[t].entry != e {
      assert WaitLink(c, t);
    }
    forall x | x in c.snaps ensures c.snaps[x].entry != e {
      assert SnapOk(c, x);
    }
    CountZero(c.threads, OfEntry(e));
    CountZero(c.snaps, OpenOn(e));
  }

  lemma {:induction false} NobodyOpened(c: Cache, e: nat, r: Revision)
    requires Inv(c) && e !in c.heap
    ensures Count(c.snaps, OpenAt(e, r)) == 0
  {
    forall x | x in c.snaps ensures c.snaps[x].entry != e {
      assert SnapOk(c, x);
    }
    CountZero(c.snaps, OpenAt(e, r));
  }
}

/** What every single step keeps. */
module RepoCacheSteps {
  import opened Common
  import opened RepoCache
  import opened RepoCacheInvariant

  lemma {:induction false} CallerStepKeepsInv(c: Cache, s: Step, d: Cache)
    requires Inv(c) && CallerTakes(c, s, d)
    ensures Inv(d)
  {
    match s
    case Enter(t, key) => EnterKeeps(c, t, key);
    case Create(t, key, e) => CreateKeeps(c, t, key, e);
    case Join(t) => JoinKeeps(c, t);
    case Start(t, f) => StartKeeps(c, t, f);
    case Leave(t, ok) => LeaveKeeps(c, t, ok);
    case Exit(t) => ExitKeeps(c, t);
  }

  lemma {:induction false} LockStepKeepsInv(c: Cache, s: Step, d: Cache)
    requires Inv(c) && LockTakes(c, s, d)
    ensures Inv(d)
  {
    match s
    case LockCaller(t) => LockCallerKeeps(c, t);
    case UnlockCaller(t) => UnlockCallerKeeps(c, t);
    case LockRefresh(f) => LockRefreshKeeps(c, f);
    case UnlockRefresh(f, ok) => UnlockRefreshKeeps(c, f, ok);
    case LockCloser(x) => LockCloserKeeps(c, x);
    case UnlockCloser(x) => UnlockCloserKeeps(c, x);
    case Touch(t, time) => TouchKeeps(c, t, time);
  }

  lemma {:induction false} CheckoutStepKeepsInv(c: Cache, s: Step, d: Cache)
    requires Inv(c) && CheckoutTakes(c, s, d)
    ensures Inv(d)
  {
    match s
    case Choose(t, r) => ChooseKeeps(c, t, r);
    case Discard(t, r, how) => DiscardKeeps(c, t, r, how);
    case Publish(t, r) => PublishKeeps(c, t, r);
    case Abandon(t, r, left) => AbandonKeeps(c, t, r, left);
    case Pin(t, x) => PinKeeps(c, t, x);
  }

  lemma {:induction false} RestStepKeepsInv(c: Cache, s: Step, d: Cache)
    requires Inv(c) && RestTakes(c, s, d)
    ensures Inv(d)
  {
    match s
    case Cancel(f) => CancelKeeps(c, f);
    case EndRefresh(f) => EndRefreshKeeps(c, f);
    case Close(x) => CloseKeeps(c, x);
    case Prune(e, r, how, recordToo) => PruneKeeps(c, e, r, how, recordToo);
    case Evict(e, how) => EvictKeeps(c, e, how);
    case Poison => PoisonKeeps(c);
  }

  lemma {:induction false} PoisonKeeps(c: Cache)
    requires Inv(c)
    ensures Inv(c.(unproven := true))
  {
    var d := c.(unproven := true);
    CountsCarry(c, d);
    DiskCarries(c, d);
    forall u | u in d.threads ensures WaitLink(d, u) && LockLink(d, u) && ChosenOk(d, u) {
      assert WaitLink(c, u) && LockLink(c, u) && ChosenOk(c, u);
    }
  }

  /** Every critical section keeps the invariant: active counts callers, running refreshes and open
      snapshots, pins counts open snapshots, and no directory behind an open snapshot goes. */
  lemma {:induction false} StepKeepsInv(c: Cache, s: Step, d: Cache)
    requires Inv(c) && Takes(c, s, d)
    ensures Inv(d)
  {
    if CallerTakes(c, s, d) {
      CallerStepKeepsInv(c, s, d);
    } else if LockTakes(c, s, d) {
      LockStepKeepsInv(c, s, d);
    } else if CheckoutTakes(c, s, d) {
      CheckoutStepKeepsInv(c, s, d);
    } else {
      RestStepKeepsInv(c, s, d);
    }
  }

  /** What no step changes about a snapshot, a finished refresh, or an entry's key. */
  predicate Settled(c: Cache, d: Cache, x: nat, f: nat, e: nat) {
    && (x in c.snaps ==> x in d.snaps && SameSnap(c.snaps[x], d.snaps[x]))
    && (f in c.flights && c.flights[f].done.Some? ==> f in d.flights && d.flights[f].done == c.flights[f].done)
    && (e in c.heap ==> e in d.heap && d.heap[e].key == c.heap[e].key)
  }

  lemma {:induction false} CallerStepSettles(c: Cache, s: Step, d: Cache, x: nat, f: nat, e: nat)
    requires CallerTakes(c, s, d)
    ensures Settled(c, d, x, f, e)
  {
  }

  lemma {:induction false} LockStepSettles(c: Cache, s: Step, d: Cache, x: nat, f: nat, e: nat)
    requires LockTakes(c, s, d)
    ensures Settled(c, d, x, f, e)
  {
  }

  lemma {:induction false} CheckoutStepSettles(c: Cache, s: Step, d: Cache, x: nat, f: nat, e: nat)
    requires CheckoutTakes(c, s, d)
    ensures Settled(c, d, x, f, e)
  {
    match s
    case Abandon(t, r, left) => AbandonSettles(c, t, r, left, x, f, e);
    case Discard(t, r, how) => DiscardSettles(c, t, r, how, x, f, e);
    case _ =>
  }

  lemma {:induction false} AbandonSettles(c: Cache, t: nat, r: Revision, left: Option<bool>, x: nat, f: nat, e: nat)
    requires CanAbandon(c, t, r, left)
    ensures Settled(c, DoAbandon(c, t, r, left), x, f, e)
  {
  }

  lemma {:induction false} DiscardSettles(c: Cache, t: nat, r: Revision, how: Removal, x: nat, f: nat, e: nat)
    requires CanDiscard(c, t, r, how)
    ensures Settled(c, DoDiscard(c, t, r, how), x, f, e)
  {
  }

  lemma {:induction false} RestStepSettles(c: Cache, s: Step, d: Cache, x: nat, f: nat, e: nat)
    requires RestTakes(c, s, d)
    ensures Settled(c, d, x, f, e)
  {
    match s
    case Prune(g, r, how, recordToo) => PruneSettles(c, g, r, how, recordToo, x, f, e);
    case Evict(g, how) => EvictSettles(c, g, how, x, f, e);
    case Close(y) => CloseSettles(c, y, x, f, e);
    case _ =>
  }

  lemma {:induction false} PruneSettles(c: Cache, g: nat, r: Revision, how: Removal, recordToo: bool, x: nat, f: nat, e: nat)
    requires CanPrune(c, g, r, how, recordToo)
    ensures Settled(c, DoPrune(c, g, r, how, recordToo), x, f, e)
  {
  }

  lemma {:induction false} EvictSettles(c: Cache, g: nat, how: Removal, x: nat, f: nat, e: nat)
    requires CanEvict(c, g, how)
    ensures Settled(c, DoEvict(c, g, how), x, f, e)
  {
  }

  lemma {:induction false} CloseSettles(c: Cache, y: nat, x: nat, f: nat, e: nat)
    requires CanClose(c, y)
    ensures Settled(c, DoClose(c, y), x, f, e)
  {
  }

  lemma {:induction false} StepSettles(c: Cache, s: Step, d: Cache, x: nat, f: nat, e: nat)
    requires Takes(c, s, d)
    ensures Settled(c, d, x, f, e)
  {
    if CallerTakes(c, s, d) {
      CallerStepSettles(c, s, d, x, f, e);
    } else if LockTakes(c, s, d) {
      LockStepSettles(c, s, d, x, f, e);
    } else if CheckoutTakes(c, s, d) {
      CheckoutStepSettles(c, s, d, x, f, e);
    } else {
      RestStepSettles(c, s, d, x, f, e);
    }
  }

  lemma {:induction false} SettledSelf(c: Cache, x: nat, f: nat, e: nat)
    ensures Settled(c, c, x, f, e)
  {
  }

  lemma {:induction false} SettledTransitive(a: Cache, b: Cache, c: Cache, x: nat, f: nat, e: nat)
    requires Settled(a, b, x, f, e) && Settled(b, c, x, f, e)
    ensures Settled(a, c, x, f, e)
  {
  }

  predicate PastRefresh(p: Phase) { p.Refreshed? || p.Holding? || p.Chosen? }

  /** How a step can bring a caller to waiting, or past the refresh. */
  predicate PhaseFrom(c: Cache, d: Cache, t: nat)
    requires t in d.threads
  {
    var p := d.threads[t].phase;
    && (p.Waiting? ==>
          || (t in c.threads && c.threads[t].phase == p)
          || (p.flight in d.flights && d.flights[p.flight].done.None?))
    && (PastRefresh(p) ==>
          && t in c.threads
          && (PastRefresh(c.threads[t].phase) || WaitedWell(c, t)))
  }

  predicate WaitedWell(c: Cache, t: nat)
    requires t in c.threads
  {
    c.threads[t].phase.Waiting? && c.threads[t].phase.flight in c.flights && c.flights[c.threads[t].phase.flight].done == Some(true)
  }

  /** Whoever an entry's lock names is there, and in the section that holds it. */
  predicate HolderLink(c: Cache, e: nat)
    requires e in c.heap
  {
    match c.heap[e].lock
    case None => true
    case Some(Caller(t)) => t in c.threads && c.threads[t].entry == e && (c.threads[t].phase.Holding? || c.threads[t].phase.Chosen?)
    case Some(Refresher(f)) => c.heap[e].flight == Some(f)
    case Some(Closer(x)) => x in c.snaps && !c.snaps[x].open && c.snaps[x].entry == e
  }

  lemma {:induction false} CallerStepHolds(c: Cache, s: Step, d: Cache, e: nat)
    requires Inv(c) && CallerTakes(c, s, d) && e in d.heap && (e in c.heap ==> HolderLink(c, e))
    ensures HolderLink(d, e)
  {
    match s
    case Enter(t, key) => EnterHolds(c, t, key, e);
    case Create(t, key, n) => CreateHolds(c, t, key, n, e);
    case _ =>
  }

  lemma {:induction false} EnterHolds(c: Cache, t: nat, key: Key, e: nat)
    requires Inv(c) && CanEnter(c, t, key) && e in c.heap && HolderLink(c, e)
    ensures HolderLink(DoEnter(c, t, key), e)
  {
    assert t in c.threads ==> WaitLink(c, t);
  }

  lemma {:induction false} CreateHolds(c: Cache, t: nat, key: Key, n: nat, e: nat)
    requires Inv(c) && CanCreate(c, t, key, n) && (e == n || e in c.heap) && (e in c.heap ==> HolderLink(c, e))
    ensures HolderLink(DoCreate(c, t, key, n), e)
  {
    assert t in c.threads ==> WaitLink(c, t);
  }

  lemma {:induction false} LockStepHolds(c: Cache, s: Step, d: Cache, e: nat)
    requires Inv(c) && LockTakes(c, s, d) && e in d.heap && (e in c.heap ==> HolderLink(c, e))
    ensures HolderLink(d, e)
  {
    match s
    case LockRefresh(f) => assert FlightOk(c, f);
    case UnlockRefresh(f, _) => assert FlightOk(c, f);
    case _ =>
  }

  lemma {:induction false} CheckoutStepHolds(c: Cache, s: Step, d: Cache, e: nat)
    requires CheckoutTakes(c, s, d) && e in d.heap && (e in c.heap ==> HolderLink(c, e))
    ensures HolderLink(d, e)
  {
    match s
    case Abandon(t, r, left) => AbandonTakenHolds(c, t, r, left, d, e);
    case Discard(t, r, how) => DiscardTakenHolds(c, t, r, how, d, e);
    case Pin(t, x) => PinHolds(c, t, x, e);
    case Choose(t, r) => ChooseHolds(c, t, r, e);
    case Publish(t, r) => PublishHolds(c, t, r, e);
  }

  lemma {:induction false} AbandonTakenHolds(c: Cache, t: nat, r: Revision, left: Option<bool>, d: Cache, e: nat)
    requires CheckoutTakes(c, Abandon(t, r, left), d) && e in d.heap && (e in c.heap ==> HolderLink(c, e))
    ensures HolderLink(d, e)
  {
    AbandonHolds(c, t, r, left, e);
  }

  lemma {:induction false} DiscardTakenHolds(c: Cache, t: nat, r: Revision, how: Removal, d: Cache, e: nat)
    requires CheckoutTakes(c, Discard(t, r, how), d) && e in d.heap && (e in c.heap ==> HolderLink(c, e))
    ensures HolderLink(d, e)
  {
    DiscardHolds(c, t, r, how, e);
  }

  lemma {:induction false} ChooseHolds(c: Cache, t: nat, r: Revision, e: nat)
    requires CanChoose(c, t, r) && e in c.heap && HolderLink(c, e)
    ensures HolderLink(DoChoose(c, t, r), e)
  {
  }

  lemma {:induction false} PublishHolds(c: Cache, t: nat, r: Revision, e: nat)
    requires CanPublish(c, t, r) && e in c.heap && HolderLink(c, e)
    ensures HolderLink(DoPublish(c, t, r), e)
  {
  }

  lemma {:induction false} AbandonHolds(c: Cache, t: nat, r: Revision, left: Option<bool>, e: nat)
    requires CanAbandon(c, t, r, left) && e in c.heap && HolderLink(c, e)
    ensures HolderLink(DoAbandon(c, t, r, left), e)
  {
  }

  lemma {:induction false} DiscardHolds(c: Cache, t: nat, r: Revision, how: Removal, e: nat)
    requires CanDiscard(c, t, r, how) && e in c.heap && HolderLink(c, e)
    ensures HolderLink(DoDiscard(c, t, r, how), e)
  {
  }

  lemma {:induction false} PinHolds(c: Cache, t: nat, x: nat, e: nat)
    requires CanPin(c, t, x) && e in c.heap && HolderLink(c, e)
    ensures HolderLink(DoPin(c, t, x), e)
  {
  }

  lemma {:induction false} RestStepHolds(c: Cache, s: Step, d: Cache, e: nat)
    requires Inv(c) && RestTakes(c, s, d) && e in d.heap && (e in c.heap ==> HolderLink(c, e))
    ensures HolderLink(d, e)
  {
    match s
    case EndRefresh(f) => EndRefreshHolds(c, f, e);
    case Close(x) => CloseHolds(c, x, e);
    case Prune(g, r, how, recordToo) => PruneHolds(c, g, r, how, recordToo, e);
    case Evict(g, how) => EvictHolds(c, g, how, e);
    case _ =>
  }

  lemma {:induction false} EndRefreshHolds(c: Cache, f: nat, e: nat)
    requires Inv(c) && CanEndRefresh(c, f) && e in c.heap && HolderLink(c, e)
    ensures HolderLink(DoEndRefresh(c, f), e)
  {
    assert FlightOk(c, f);
  }

  lemma {:induction false} CloseHolds(c: Cache, x: nat, e: nat)
    requires CanClose(c, x) && e in c.heap && HolderLink(c, e)
    ensures HolderLink(DoClose(c, x), e)
  {
  }

  lemma {:induction false} PruneHolds(c: Cache, g: nat, r: Revision, how: Removal, recordToo: bool, e: nat)
    requires CanPrune(c, g, r, how, recordToo) && e in c.heap && HolderLink(c, e)
    ensures HolderLink(DoPrune(c, g, r, how, recordToo), e)
  {
  }

  lemma {:induction false} EvictHolds(c: Cache, g: nat, how: Removal, e: nat)
    requires CanEvict(c, g, how) && e in c.heap && HolderLink(c, e)
    ensures HolderLink(DoEvict(c, g, how), e)
  {
  }

  lemma {:induction false} StepHolds(c: Cache, s: Step, d: Cache, e: nat)
    requires Inv(c) && Takes(c, s, d) && e in d.heap && (e in c.heap ==> HolderLink(c, e))
    ensures HolderLink(d, e)
  {
    if CallerTakes(c, s, d) {
      CallerStepHolds(c, s, d, e);
    } else if LockTakes(c, s, d) {
      LockStepHolds(c, s, d, e);
    } else if CheckoutTakes(c, s, d) {
      CheckoutStepHolds(c, s, d, e);
    } else {
      RestStepHolds(c, s, d, e);
    }
  }

  lemma {:induction false} CallerPhaseStep(c: Cache, s: Step, d: Cache, t: nat)
    requires Inv(c) && CallerTakes(c, s, d) && t in d.threads
    ensures PhaseFrom(c, d, t)
  {
    if s.Join? {
      assert FlightLink(c, c.threads[s.thread].entry);
    }
  }

  lemma {:induction false} LockPhaseStep(c: Cache, s: Step, d: Cache, t: nat)
    requires LockTakes(c, s, d) && t in d.threads
    ensures PhaseFrom(c, d, t)
  {
  }

  lemma {:induction false} CheckoutPhaseStep(c: Cache, s: Step, d: Cache, t: nat)
    requires CheckoutTakes(c, s, d) && t in d.threads
    ensures PhaseFrom(c, d, t)
  {
    match s
    case Abandon(u, r, left) => AbandonPhaseStep(c, u, r, left, t);
    case Discard(u, r, how) => DiscardPhaseStep(c, u, r, how, t);
    case _ =>
  }

  lemma {:induction false} AbandonPhaseStep(c: Cache, u: nat, r: Revision, left: Option<bool>, t: nat)
    requires CanAbandon(c, u, r, left) && t in DoAbandon(c, u, r, left).threads
    ensures PhaseFrom(c, DoAbandon(c, u, r, left), t)
  {
  }

  lemma {:induction false} DiscardPhaseStep(c: Cache, u: nat, r: Revision, how: Removal, t: nat)
    requires CanDiscard(c, u, r, how) && t in DoDiscard(c, u, r, how).threads
    ensures PhaseFrom(c, DoDiscard(c, u, r, how), t)
  {
  }

  lemma {:induction false} RestPhaseStep(c: Cache, s: Step, d: Cache, t: nat)
    requires RestTakes(c, s, d) && t in d.threads
    ensures PhaseFrom(c, d, t)
  {
  }
}
