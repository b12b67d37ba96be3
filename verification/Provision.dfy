/** One session's Pod and Secret, created once each although replies are lost, requests commit late
    and the controller crashes (src/internal/controller/session_provision.go,
    src/internal/kubernetes/client.go, src/internal/workspace/stop.go). */
module ProvisionRuns {
  import opened Common

  type Uid = nat

  /** The journaled creation record. */
  datatype Resources = Resources(
    secretRequested: bool,
    podRequested: bool,
    podDigest: string,
    podRequest: string,
    podUid: Option<Uid>,
    secretUid: Option<Uid>
  )

  /** Why the session's worker cannot write any more: no Pod was ever requested, or its containers
      have ended for good. */
  datatype Evidence = NoWorker | WorkerOver

  datatype Journal = Journal(
    resources: Option<Resources>, podUid: Option<Uid>, stop: bool, evidence: Option<Evidence>, closed: bool, cleaned: bool
  )

  /** ours: created by a request of this session, so that every identity check on it succeeds. */
  datatype Object = Object(uid: Uid, ours: bool, deleting: bool)

  /** Requests in flight may still commit; the ever sets are the objects this session's requests made,
      over the Pods none of whose containers will run again. */
  datatype State = State(
    j: Journal,
    pod: Option<Object>,
    secret: Option<Object>,
    podPosts: nat,
    secretPosts: nat,
    podsEver: set<Uid>,
    secretsEver: set<Uid>,
    over: set<Uid>,
    next: Uid
  )

  predicate SecretIntent(r: Option<Resources>) { r.Some? && r.value.secretRequested }

  predicate PodIntent(r: Option<Resources>) { r.Some? && r.value.podRequested }

  /** preservesResourceCreation: what a stored record may be replaced by. */
  predicate Preserves(before: Option<Resources>, after: Resources, stopping: bool) {
    && (stopping ==> (after.secretRequested ==> SecretIntent(before)) && (after.podRequested ==> PodIntent(before)))
    && (PodIntent(before) ==> after.podRequested)
    && (SecretIntent(before) ==> after.secretRequested)
    && (PodIntent(before) ==>
          && (before.value.podDigest != "" ==> after.podDigest == before.value.podDigest)
          && (before.value.podRequest != "" ==> after.podRequest == before.value.podRequest))
    && (before.Some? && before.value.podUid.Some? ==> after.podUid == before.value.podUid)
    && (before.Some? && before.value.secretUid.Some? ==> after.secretUid == before.value.secretUid)
  }

  datatype Step =
    // what the controller does, one store transaction or one request at a time
    | Save(resources: Resources)
    | PostSecret
    | PostPod
    | Bind(uid: Uid)
    | Observe(evidence: Evidence)
    | Close
    | DeletePod
    | ReleasePod
    | DeleteSecret
    | MarkCleaned
    // what happens around it
    | RequestStop
    | CommitSecret
    | CommitPod
    | DropSecretPost
    | DropPodPost
    | OthersDeletePod
    | EndWorker(uid: Uid)
    | ForeignSecret(appears: bool)
    | ForeignPod(appears: bool)

  predicate Lasts(before: Option<Uid>, after: Option<Uid>) { before.Some? ==> after == before }

  /** Every request that was issued has become a journaled object. */
  predicate Resolved(j: Journal) {
    && (PodIntent(j.resources) ==> j.resources.value.podUid.Some?)
    && (SecretIntent(j.resources) ==> j.resources.value.secretUid.Some?)
  }

  predicate Made(uid: Option<Uid>, ever: set<Uid>) { uid.Some? ==> uid.value in ever }

  /** settled: requests of this session have committed or failed before its objects are removed. */
  predicate Enabled(s: State, step: Step, settled: bool) {
    var j, r := s.j, s.j.resources;
    match step
    case Save(next) =>
      && !j.closed && !j.cleaned && Preserves(r, next, j.stop)
      && (next.podRequested ==> next.secretUid.Some?)
      && Lasts(next.podUid, j.podUid) && Made(next.secretUid, s.secretsEver)
    case PostSecret => SecretIntent(r) && !j.closed
    case PostPod => PodIntent(r) && !j.closed
    case Bind(uid) => !j.closed && uid in s.podsEver && (j.podUid.Some? ==> j.podUid.value == uid)
    case Observe(e) =>
      && j.stop && !j.closed && j.evidence.None? && Resolved(j)
      && (e == NoWorker <==> j.podUid.None?) && (e == WorkerOver ==> j.podUid.Some? && j.podUid.value in s.over)
    case Close => j.stop && Resolved(j) && j.evidence.Some?
    case DeletePod => r.Some? && s.pod.Some? && r.value.podUid == Some(s.pod.value.uid)
    case ReleasePod => j.closed && r.Some? && s.pod.Some? && s.pod.value.deleting && r.value.podUid == Some(s.pod.value.uid) && (settled ==> s.podPosts == 0)
    case DeleteSecret => j.closed && r.Some? && s.secret.Some? && r.value.secretUid == Some(s.secret.value.uid) && (settled ==> s.secretPosts == 0)
    case MarkCleaned => j.closed
    case RequestStop => true
    case CommitSecret => s.secretPosts > 0 && s.secret.None?
    case CommitPod => s.podPosts > 0 && s.pod.None?
    case DropSecretPost => s.secretPosts > 0
    case DropPodPost => s.podPosts > 0
    case OthersDeletePod => s.pod.Some? && s.pod.value.ours
    case EndWorker(uid) => uid in s.podsEver
    case ForeignSecret(appears) => if appears then s.secret.None? else s.secret.Some? && !s.secret.value.ours
    case ForeignPod(appears) => if appears then s.pod.None? else s.pod.Some? && !s.pod.value.ours
  }

  function Apply(s: State, step: Step, settled: bool): State
    requires Enabled(s, step, settled)
  {
    var fresher, made, theirs := s.(next := s.next + 1), Some(Object(s.next, true, false)), Some(Object(s.next, false, false));
    match step
    case Save(next) => s.(j := s.j.(resources := Some(next)))
    case PostSecret => s.(secretPosts := s.secretPosts + 1)
    case PostPod => s.(podPosts := s.podPosts + 1)
    case Bind(uid) => s.(j := s.j.(podUid := Some(uid)))
    case Observe(e) => s.(j := s.j.(evidence := Some(e)))
    case Close => s.(j := s.j.(closed := true))
    case DeletePod => s.(pod := Some(s.pod.value.(deleting := true)))
    case ReleasePod => s.(pod := None)
    case DeleteSecret => s.(secret := None)
    case MarkCleaned => s.(j := s.j.(cleaned := true))
    case RequestStop => s.(j := s.j.(stop := true))
    case CommitSecret => fresher.(secret := made, secretPosts := s.secretPosts - 1, secretsEver := s.secretsEver + {s.next})
    case CommitPod => fresher.(pod := made, podPosts := s.podPosts - 1, podsEver := s.podsEver + {s.next})
    case DropSecretPost => s.(secretPosts := s.secretPosts - 1)
    case DropPodPost => s.(podPosts := s.podPosts - 1)
    case OthersDeletePod => s.(pod := Some(s.pod.value.(deleting := true)))
    case EndWorker(uid) => s.(over := s.over + {uid})
    case ForeignSecret(appears) => if appears then fresher.(secret := theirs) else s.(secret := None)
    case ForeignPod(appears) => if appears then fresher.(pod := theirs) else s.(pod := None)
  }

  predicate Initial(s: State) {
    && s.j == Journal(None, None, false, None, false, false)
    && s.podPosts == 0 && s.secretPosts == 0 && s.podsEver == {} && s.secretsEver == {} && s.over == {}
    && (s.pod.Some? ==> !s.pod.value.ours && s.pod.value.uid < s.next)
    && (s.secret.Some? ==> !s.secret.value.ours && s.secret.value.uid < s.next)
  }

  ghost predicate Next(s: State, t: State, settled: bool) {
    exists step :: Enabled(s, step, settled) && t == Apply(s, step, settled)
  }

  ghost predicate Run(h: seq<State>, settled: bool) {
    && |h| > 0 && Initial(h[0])
    && forall i :: 0 <= i < |h| - 1 ==> Next(h[i], h[i + 1], settled)
  }

  predicate AtMostOne(ever: set<Uid>) {
    forall u, v :: u in ever && v in ever ==> u == v
  }

  predicate Present(o: Option<Object>) { o.Some? && o.value.ours }

  /** What holds of the Pod in every run, requests settled or not. */
  predicate PodBase(s: State) {
    && (forall u :: u in s.podsEver ==> u < s.next)
    && (s.pod.Some? ==> s.pod.value.uid < s.next && (s.pod.value.ours <==> s.pod.value.uid in s.podsEver))
    && (s.podPosts > 0 || s.podsEver != {} ==> PodIntent(s.j.resources))
    && Made(s.j.podUid, s.podsEver)
    && (s.j.resources.Some? ==> Lasts(s.j.resources.value.podUid, s.j.podUid))
    && (s.j.closed ==> (PodIntent(s.j.resources) ==> s.j.resources.value.podUid.Some?))
    && (!s.j.closed ==> AtMostOne(s.podsEver) && (s.podsEver != {} ==> Present(s.pod)))
    && (s.j.evidence == Some(NoWorker) ==> s.j.stop && !PodIntent(s.j.resources))
    && (s.j.evidence == Some(WorkerOver) ==> s.j.podUid.Some? && s.j.podUid.value in s.over)
    && (s.j.closed ==> s.j.evidence.Some?)
  }

  /** Besides, while requests settle before removals: one Pod, and once it is gone nothing in flight. */
  predicate PodInv(s: State) {
    PodBase(s) && AtMostOne(s.podsEver) && (s.podsEver != {} && !Present(s.pod) ==> s.j.closed && s.podPosts == 0)
  }

  predicate SecretBase(s: State) {
    && (forall u :: u in s.secretsEver ==> u < s.next)
    && (s.secret.Some? ==> s.secret.value.uid < s.next && (s.secret.value.ours <==> s.secret.value.uid in s.secretsEver))
    && (s.secretPosts > 0 || s.secretsEver != {} ==> SecretIntent(s.j.resources))
    && (s.j.resources.Some? ==> Made(s.j.resources.value.secretUid, s.secretsEver))
    && (PodIntent(s.j.resources) ==> s.j.resources.value.secretUid.Some?)
    && (s.j.closed ==> (SecretIntent(s.j.resources) ==> s.j.resources.value.secretUid.Some?))
    && (!s.j.closed ==> AtMostOne(s.secretsEver) && (s.secretsEver != {} ==> Present(s.secret)))
  }

  predicate SecretInv(s: State) {
    SecretBase(s) && AtMostOne(s.secretsEver) && (s.secretsEver != {} && !Present(s.secret) ==> s.j.closed && s.secretPosts == 0)
  }

  lemma {:induction false} PodBaseStep(s: State, step: Step)
    requires PodBase(s) && Enabled(s, step, false)
    ensures PodBase(Apply(s, step, false))
  {
    match step
    case CommitPod => PodBaseCommit(s);
    case Save(_) => PodBaseSave(s, step);
    case _ =>
  }

  lemma {:induction false} PodBaseSave(s: State, step: Step)
    requires PodBase(s) && Enabled(s, step, false) && step.Save?
    ensures PodBase(Apply(s, step, false))
  {
  }

  lemma {:induction false} PodBaseCommit(s: State)
    requires PodBase(s) && Enabled(s, CommitPod, false)
    ensures PodBase(Apply(s, CommitPod, false))
  {
    if !s.j.closed {
      assert s.podsEver == {};
    }
  }

  lemma {:induction false} SecretBaseStep(s: State, step: Step)
    requires SecretBase(s) && Enabled(s, step, false)
    ensures SecretBase(Apply(s, step, false))
  {
    if step.CommitSecret? && !s.j.closed {
      assert s.secretsEver == {};
    }
  }

  /** The step that fails create-once, exactly: what settled runs keep is lost by releasing the Pod
      while one of its create requests is still in flight, and by nothing else. */
  lemma {:induction false} PodStep(s: State, step: Step)
    requires PodInv(s) && Enabled(s, step, false)
    ensures PodInv(Apply(s, step, false)) <==> !(step.ReleasePod? && s.podPosts > 0)
  {
    PodBaseStep(s, step);
    if step.CommitPod? {
      assert s.podsEver == {};
    }
    if step.ReleasePod? {
      assert s.pod.value.uid in s.podsEver;
    }
  }

  lemma {:induction false} SecretStep(s: State, step: Step)
    requires SecretInv(s) && Enabled(s, step, false)
    ensures SecretInv(Apply(s, step, false)) <==> !(step.DeleteSecret? && s.secretPosts > 0)
  {
    SecretBaseStep(s, step);
    if step.CommitSecret? {
      assert s.secretsEver == {};
    }
    if step.DeleteSecret? {
      assert s.secret.value.uid in s.secretsEver;
    }
  }

  lemma {:induction false} SettledRuns(h: seq<State>)
    requires Run(h, true)
    ensures Run(h, false)
  {
    forall i | 0 <= i < |h| - 1 ensures Next(h[i], h[i + 1], false) {
      var step :| Enabled(h[i], step, true) && h[i + 1] == Apply(h[i], step, true);
      assert Enabled(h[i], step, false) && h[i + 1] == Apply(h[i], step, false);
    }
  }

  lemma {:induction false} BaseInv(h: seq<State>, i: nat)
    requires Run(h, false) && i < |h|
    ensures PodBase(h[i]) && SecretBase(h[i])
  {
    if i > 0 {
      BaseInv(h, i - 1);
      assert Next(h[i - 1], h[i - 1 + 1], false);
      var step :| Enabled(h[i - 1], step, false) && h[i] == Apply(h[i - 1], step, false);
      PodBaseStep(h[i - 1], step);
      SecretBaseStep(h[i - 1], step);
    }
  }

  lemma {:induction false} RunInv(h: seq<State>, i: nat)
    requires Run(h, true) && i < |h|
    ensures PodInv(h[i]) && SecretInv(h[i])
  {
    if i > 0 {
      RunInv(h, i - 1);
      assert Next(h[i - 1], h[i - 1 + 1], true);
      var step :| Enabled(h[i - 1], step, true) && h[i] == Apply(h[i - 1], step, true);
      assert Enabled(h[i - 1], step, false) && h[i] == Apply(h[i - 1], step, false);
      PodStep(h[i - 1], step);
      SecretStep(h[i - 1], step);
    }
  }

  /** Over a whole run: the invariant holds throughout if and only if every removal waited until the
      object's create requests had settled. */
  lemma {:induction false} InvariantIffSettled(h: seq<State>)
    requires Run(h, false)
    ensures (forall i :: 0 <= i < |h| ==> PodInv(h[i]) && SecretInv(h[i])) <==> Run(h, true)
  {
    if Run(h, true) {
      forall i | 0 <= i < |h| ensures PodInv(h[i]) && SecretInv(h[i]) {
        RunInv(h, i);
      }
    }
    if forall i :: 0 <= i < |h| ==> PodInv(h[i]) && SecretInv(h[i]) {
      forall i | 0 <= i < |h| - 1 ensures Next(h[i], h[i + 1], true) {
        StepSettled(h[i], h[i + 1]);
      }
    }
  }

  lemma {:induction false} StepSettled(s: State, t: State)
    requires Next(s, t, false) && PodInv(s) && SecretInv(s) && PodInv(t) && SecretInv(t)
    ensures Next(s, t, true)
  {
    var step :| Enabled(s, step, false) && t == Apply(s, step, false);
    PodStep(s, step);
    SecretStep(s, step);
    assert Enabled(s, step, true) && t == Apply(s, step, true);
  }

  /** At every moment of every run at most one Pod and at most one Secret have ever been made, and a
      journaled UID is the UID of that object. */
  lemma {:induction false} CreatedOnce(h: seq<State>, i: nat)
    requires Run(h, true) && i < |h|
    ensures |h[i].podsEver| <= 1 && |h[i].secretsEver| <= 1
    ensures h[i].j.podUid.Some? ==> h[i].podsEver == {h[i].j.podUid.value}
    ensures var r := h[i].j.resources; r.Some? ==>
      && (r.value.podUid.Some? ==> h[i].podsEver == {r.value.podUid.value})
      && (r.value.secretUid.Some? ==> h[i].secretsEver == {r.value.secretUid.value})
  {
    RunInv(h, i);
    AtMostOneSize(h[i].podsEver);
    AtMostOneSize(h[i].secretsEver);
  }

  lemma {:induction false} AtMostOneSize(ever: set<Uid>)
    requires AtMostOne(ever)
    ensures |ever| <= 1
    ensures forall u :: u in ever ==> ever == {u}
  {
    if u :| u in ever {
      assert ever == {u};
    }
  }

  /** Any continuation, requests settled or not. */
  ghost predicate From(s: State, g: seq<State>) {
    && |g| > 0 && g[0] == s
    && forall i :: 0 <= i < |g| - 1 ==> Next(g[i], g[i + 1], false)
  }

  lemma {:induction false} FromOne(s: State, step: Step)
    requires Enabled(s, step, false)
    ensures From(s, [s, Apply(s, step, false)])
  {
    assert Next(s, Apply(s, step, false), false);
  }

  lemma {:induction false} PodStaysGone(s: State, step: Step)
    requires s.j.closed && Enabled(s, step, false) && !Present(s.pod) && s.podPosts == 0
    ensures var t := Apply(s, step, false);
      t.j.closed && !Present(t.pod) && t.podPosts == 0 && t.podsEver == s.podsEver
  {
  }

  lemma {:induction false} SecretStaysGone(s: State, step: Step)
    requires s.j.closed && Enabled(s, step, false) && !Present(s.secret) && s.secretPosts == 0
    ensures var t := Apply(s, step, false);
      t.j.closed && !Present(t.secret) && t.secretPosts == 0 && t.secretsEver == s.secretsEver
  {
  }

  lemma {:induction false} PodGoneFrom(s: State, g: seq<State>, i: nat)
    requires From(s, g) && i < |g| && s.j.closed && !Present(s.pod) && s.podPosts == 0
    ensures g[i].j.closed && !Present(g[i].pod) && g[i].podPosts == 0 && g[i].podsEver == s.podsEver
  {
    if i > 0 {
      PodGoneFrom(s, g, i - 1);
      assert Next(g[i - 1], g[i - 1 + 1], false);
      var step :| Enabled(g[i - 1], step, false) && g[i] == Apply(g[i - 1], step, false);
      PodStaysGone(g[i - 1], step);
    }
  }

  lemma {:induction false} SecretGoneFrom(s: State, g: seq<State>, i: nat)
    requires From(s, g) && i < |g| && s.j.closed && !Present(s.secret) && s.secretPosts == 0
    ensures g[i].j.closed && !Present(g[i].secret) && g[i].secretPosts == 0 && g[i].secretsEver == s.secretsEver
  {
    if i > 0 {
      SecretGoneFrom(s, g, i - 1);
      assert Next(g[i - 1], g[i - 1 + 1], false);
      var step :| Enabled(g[i - 1], step, false) && g[i] == Apply(g[i - 1], step, false);
      SecretStaysGone(g[i - 1], step);
    }
  }

  /** Releasing the Pod is safe exactly when none of its create requests is still in flight: then and
      only then no continuation ever has a second one. */
  lemma {:induction false} ReleaseSafeIffSettled(s: State)
    requires PodInv(s) && Enabled(s, ReleasePod, false)
    ensures s.podPosts == 0 <==> forall g: seq<State> :: From(Apply(s, ReleasePod, false), g) ==> AtMostOne(g[|g| - 1].podsEver)
  {
    var t, uid := Apply(s, ReleasePod, false), s.pod.value.uid;
    assert uid in s.podsEver;
    if s.podPosts == 0 {
      forall g: seq<State> | From(t, g) ensures AtMostOne(g[|g| - 1].podsEver) {
        PodGoneFrom(t, g, |g| - 1);
      }
    } else {
      FromOne(t, CommitPod);
      var g := [t, Apply(t, CommitPod, false)];
      assert uid in g[1].podsEver && s.next in g[1].podsEver;
      assert !AtMostOne(g[|g| - 1].podsEver);
    }
  }

  lemma {:induction false} DeleteSafeIffSettled(s: State)
    requires SecretInv(s) && Enabled(s, DeleteSecret, false)
    ensures s.secretPosts == 0 <==> forall g: seq<State> :: From(Apply(s, DeleteSecret, false), g) ==> AtMostOne(g[|g| - 1].secretsEver)
  {
    var t, uid := Apply(s, DeleteSecret, false), s.secret.value.uid;
    assert uid in s.secretsEver;
    if s.secretPosts == 0 {
      forall g: seq<State> | From(t, g) ensures AtMostOne(g[|g| - 1].secretsEver) {
        SecretGoneFrom(t, g, |g| - 1);
      }
    } else {
      FromOne(t, CommitSecret);
      var g := [t, Apply(t, CommitSecret, false)];
      assert uid in g[1].secretsEver && s.next in g[1].secretsEver;
      assert !AtMostOne(g[|g| - 1].secretsEver);
    }
  }

  /** What no later step takes back: intents, UIDs and the bytes of an issued Pod request. */
  predicate Remembers(a: Journal, b: Journal) {
    && Lasts(a.podUid, b.podUid) && (a.stop ==> b.stop) && (a.closed ==> b.closed)
    && (a.resources.Some? ==>
          && b.resources.Some? && Lasts(a.resources.value.podUid, b.resources.value.podUid)
          && Lasts(a.resources.value.secretUid, b.resources.value.secretUid))
    && (SecretIntent(a.resources) ==> SecretIntent(b.resources))
    && (PodIntent(a.resources) ==> PodIntent(b.resources))
    && (PodIntent(a.resources) ==>
          && (a.resources.value.podRequest != "" ==> b.resources.value.podRequest == a.resources.value.podRequest)
          && (a.resources.value.podDigest != "" ==> b.resources.value.podDigest == a.resources.value.podDigest))
    && (a.closed ==> a.resources == b.resources && a.podUid == b.podUid)
    && (a.evidence.Some? ==> b.evidence == a.evidence)
    && (a.stop && !PodIntent(a.resources) ==> !PodIntent(b.resources))
    && (a.stop && !SecretIntent(a.resources) ==> !SecretIntent(b.resources))
  }

  lemma {:induction false} JournalRemembers(h: seq<State>, i: nat, k: nat, settled: bool)
    requires Run(h, settled) && i <= k < |h|
    ensures Remembers(h[i].j, h[k].j)
    decreases k
  {
    if i < k {
      JournalRemembers(h, i, k - 1, settled);
      assert Next(h[k - 1], h[k - 1 + 1], settled);
      RemembersStep(h[i].j, h[k - 1], h[k], settled);
    }
  }

  lemma {:induction false} RemembersStep(a: Journal, s: State, t: State, settled: bool)
    requires Remembers(a, s.j) && Next(s, t, settled)
    ensures Remembers(a, t.j)
  {
  }

  lemma {:induction false} AnyBase(h: seq<State>, i: nat, settled: bool)
    requires Run(h, settled) && i < |h|
    ensures PodBase(h[i]) && SecretBase(h[i])
  {
    if settled {
      SettledRuns(h);
    }
    BaseInv(h, i);
  }

  /** A journaled UID is permanent, and always that of an object this session's requests made: no
      crash, retry or cleanup ever changes it, and in settled runs there is no other such object. */
  lemma {:induction false} UidsArePermanent(h: seq<State>, i: nat, k: nat, settled: bool)
    requires Run(h, settled) && i <= k < |h|
    ensures Lasts(h[i].j.podUid, h[k].j.podUid) && Made(h[i].j.podUid, h[k].podsEver)
    ensures h[i].j.resources.Some? ==>
      && h[k].j.resources.Some?
      && Lasts(h[i].j.resources.value.podUid, h[k].j.resources.value.podUid)
      && Lasts(h[i].j.resources.value.secretUid, h[k].j.resources.value.secretUid)
      && Made(h[i].j.resources.value.secretUid, h[k].secretsEver)
    ensures settled && h[i].j.podUid.Some? ==> h[k].podsEver == {h[i].j.podUid.value}
  {
    JournalRemembers(h, i, k, settled);
    AnyBase(h, k, settled);
    if settled {
      CreatedOnce(h, k);
    }
  }

  /** A stop that finds no Pod request issued is final: no Pod is made before or after it. */
  lemma {:induction false} NoWorkerIsFinal(h: seq<State>, i: nat, k: nat, settled: bool)
    requires Run(h, settled) && i < |h| && k < |h|
    requires h[i].j.stop && !PodIntent(h[i].j.resources)
    ensures h[k].podsEver == {}
  {
    AnyBase(h, k, settled);
    if i <= k {
      JournalRemembers(h, i, k, settled);
    } else {
      JournalRemembers(h, k, i, settled);
    }
  }

  /** When a session closes, every worker its requests ever made is over. */
  lemma {:induction false} ClosesOnlyOver(h: seq<State>, i: nat, settled: bool)
    requires Run(h, settled) && i + 1 < |h| && !h[i].j.closed && h[i + 1].j.closed
    ensures h[i + 1].podsEver <= h[i + 1].over
  {
    AnyBase(h, i, settled);
    assert Next(h[i], h[i + 1], settled);
    var step :| Enabled(h[i], step, settled) && h[i + 1] == Apply(h[i], step, settled);
    OnlyCloseCloses(h[i], step, settled);
    ObservedOver(h[i]);
  }

  lemma {:induction false} OnlyCloseCloses(s: State, step: Step, settled: bool)
    requires Enabled(s, step, settled) && !s.j.closed && Apply(s, step, settled).j.closed
    ensures s.j.evidence.Some? && Apply(s, step, settled).podsEver == s.podsEver && Apply(s, step, settled).over == s.over
  {
    assert step.Close?;
  }

  lemma {:induction false} ObservedOver(s: State)
    requires PodBase(s) && !s.j.closed && s.j.evidence.Some?
    ensures s.podsEver <= s.over
  {
    AtMostOneSize(s.podsEver);
    match s.j.evidence.value
    case NoWorker => assert s.podsEver == {};
    case WorkerOver => assert s.podsEver == {s.j.podUid.value};
  }

  lemma {:induction false} SettledBefore(h: seq<State>, n: nat)
    requires Run(h, true) && 0 < n <= |h|
    ensures Run(h[..n], true)
  {
    forall i | 0 <= i < n - 1 ensures Next(h[..n][i], h[..n][i + 1], true) {
      assert Next(h[i], h[i + 1], true);
    }
  }

  /** Nothing of a closed session is left to commit once its object is gone. */
  lemma {:induction false} NothingInFlight(s: State)
    requires PodInv(s) && SecretInv(s) && s.j.closed
    ensures !Present(s.pod) ==> s.podPosts == 0
    ensures !Present(s.secret) ==> s.secretPosts == 0
  {
    if s.podPosts > 0 {
      assert s.j.podUid.value in s.podsEver;
    }
    if s.secretPosts > 0 {
      assert s.j.resources.value.secretUid.value in s.secretsEver;
    }
  }

  /** Once a closed session's object is gone, it stays gone and no other is ever made, provided that
      removals wait for requests to settle. */
  lemma {:induction false} NothingAfterCleanup(h: seq<State>, i: nat, k: nat)
    requires Run(h, true) && i <= k < |h| && h[i].j.closed
    ensures !Present(h[i].pod) ==> !Present(h[k].pod) && h[k].podsEver == h[i].podsEver
    ensures !Present(h[i].secret) ==> !Present(h[k].secret) && h[k].secretsEver == h[i].secretsEver
  {
    SettledRuns(h);
    RunInv(h, i);
    NothingInFlight(h[i]);
    var g := h[i..k + 1];
    assert From(h[i], g) by {
      forall n | 0 <= n < |g| - 1 ensures Next(g[n], g[n + 1], false) {
        assert Next(h[i + n], h[i + n + 1], false);
      }
    }
    if !Present(h[i].pod) {
      PodGoneFrom(h[i], g, k - i);
    }
    if !Present(h[i].secret) {
      SecretGoneFrom(h[i], g, k - i);
    }
  }

  /** A closed session's Pod that is gone stays gone in every continuation exactly when none of its
      create requests is in flight; and so does its Secret. */
  lemma {:induction false} GoneForGoodIff(s: State)
    requires PodBase(s) && SecretBase(s) && s.j.closed
    ensures !Present(s.pod) ==> (s.podPosts == 0 <==> forall g: seq<State> :: From(s, g) ==> !Present(g[|g| - 1].pod))
    ensures !Present(s.secret) ==> (s.secretPosts == 0 <==> forall g: seq<State> :: From(s, g) ==> !Present(g[|g| - 1].secret))
  {
    if !Present(s.pod) && s.podPosts == 0 {
      forall g: seq<State> | From(s, g) ensures !Present(g[|g| - 1].pod) {
        PodGoneFrom(s, g, |g| - 1);
      }
    } else if !Present(s.pod) {
      var g := PodReturns(s);
    }
    if !Present(s.secret) && s.secretPosts == 0 {
      forall g: seq<State> | From(s, g) ensures !Present(g[|g| - 1].secret) {
        SecretGoneFrom(s, g, |g| - 1);
      }
    } else if !Present(s.secret) {
      var g := SecretReturns(s);
    }
  }

  lemma {:induction false} FromThen(s: State, g: seq<State>, step: Step)
    requires From(s, g) && Enabled(g[|g| - 1], step, false)
    ensures From(s, g + [Apply(g[|g| - 1], step, false)])
  {
    var k := g + [Apply(g[|g| - 1], step, false)];
    assert Next(g[|g| - 1], k[|g|], false);
    forall i | 0 <= i < |k| - 1 ensures Next(k[i], k[i + 1], false) {
      assert i < |g| - 1 ==> Next(g[i], g[i + 1], false);
    }
  }

  /** Whatever stands at the name can go, and the request commits. */
  lemma {:induction false} PodReturns(s: State) returns (g: seq<State>)
    requires !Present(s.pod) && s.podPosts > 0
    ensures From(s, g) && Present(g[|g| - 1].pod)
  {
    g := [s];
    if s.pod.Some? {
      FromThen(s, g, ForeignPod(false));
      g := g + [Apply(s, ForeignPod(false), false)];
    }
    var last := g[|g| - 1];
    FromThen(s, g, CommitPod);
    g := g + [Apply(last, CommitPod, false)];
  }

  lemma {:induction false} SecretReturns(s: State) returns (g: seq<State>)
    requires !Present(s.secret) && s.secretPosts > 0
    ensures From(s, g) && Present(g[|g| - 1].secret)
  {
    g := [s];
    if s.secret.Some? {
      FromThen(s, g, ForeignSecret(false));
      g := g + [Apply(s, ForeignSecret(false), false)];
    }
    var last := g[|g| - 1];
    FromThen(s, g, CommitSecret);
    g := g + [Apply(last, CommitSecret, false)];
  }

  lemma {:induction false} Extended(h: seq<State>, step: Step, settled: bool)
    requires Run(h, settled) && Enabled(h[|h| - 1], step, settled)
    ensures Run(h + [Apply(h[|h| - 1], step, settled)], settled)
  {
    var g := h + [Apply(h[|h| - 1], step, settled)];
    assert Next(h[|h| - 1], g[|h|], settled);
    forall i | 0 <= i < |g| - 1 ensures Next(g[i], g[i + 1], settled) {
      assert i < |h| - 1 ==> Next(h[i], h[i + 1], settled);
    }
  }

  /** Cleanup must wait for the session's requests to settle: when it does not, a repeated create
      whose reply was lost can commit after the Pod is gone, and a second Pod exists. */
  lemma {:induction false} LateCommitMakesSecondPod()
    ensures exists h: seq<State> :: Run(h, false) && h[|h| - 1].j.closed && h[|h| - 1].podsEver == {1, 2}
  {
    var h := ClosedWithCreateInFlight();
    h := Then(h, DeletePod);
    h := Then(h, ReleasePod);
    h := Then(h, CommitPod);
  }

  lemma {:induction false} ClosedWithCreateInFlight() returns (h: seq<State>)
    ensures Run(h, false)
    ensures h[|h| - 1] == State(Journal(Some(Resources(true, true, "d", "r", Some(1), Some(0))), Some(1), true, Some(WorkerOver), true, false),
      Some(Object(1, true, false)), Some(Object(0, true, false)), 1, 0, {1}, {0}, {1}, 2)
  {
    h := RepeatedCreate();
    h := Then(h, RequestStop);
    h := Then(h, EndWorker(1));
    h := Then(h, Observe(WorkerOver));
    h := Then(h, Close);
  }

  /** The same for the Secret of a session that never had a Pod. */
  lemma {:induction false} LateCommitMakesSecondSecret()
    ensures exists h: seq<State> :: Run(h, false) && h[|h| - 1].j.closed && h[|h| - 1].secretsEver == {0, 1}
  {
    var h := RepeatedSecret();
    h := Then(h, Observe(NoWorker));
    h := Then(h, Close);
    h := Then(h, DeleteSecret);
    h := Then(h, CommitSecret);
  }

  /** Two requests for the Secret, one of which has committed and been journaled, and a stop. */
  lemma {:induction false} RepeatedSecret() returns (h: seq<State>)
    ensures Run(h, false)
    ensures h[|h| - 1] == State(Journal(Some(Resources(true, false, "d", "r", None, Some(0))), None, true, None, false, false),
      None, Some(Object(0, true, false)), 0, 1, {}, {0}, {}, 1)
  {
    h := SecretCreated();
    h := Then(h, PostSecret);
    h := Then(h, Save(Resources(true, false, "d", "r", None, Some(0))));
    h := Then(h, RequestStop);
  }

  /** Two requests for the Pod, one of which has committed and been journaled. */
  lemma {:induction false} RepeatedCreate() returns (h: seq<State>)
    ensures Run(h, false)
    ensures h[|h| - 1] == State(Journal(Some(Resources(true, true, "d", "r", Some(1), Some(0))), Some(1), false, None, false, false),
      Some(Object(1, true, false)), Some(Object(0, true, false)), 1, 0, {1}, {0}, {}, 2)
  {
    h := SecretCreated();
    var made := Resources(true, true, "d", "r", None, Some(0));
    h := Then(h, Save(made));
    h := Then(h, PostPod);
    h := Then(h, PostPod);
    h := Then(h, CommitPod);
    h := Then(h, Bind(1));
    h := Then(h, Save(made.(podUid := Some(1))));
  }

  lemma {:induction false} SecretCreated() returns (h: seq<State>)
    ensures Run(h, false)
    ensures h[|h| - 1] == State(Journal(Some(Resources(true, false, "d", "r", None, None)), None, false, None, false, false),
      None, Some(Object(0, true, false)), 0, 0, {}, {0}, {}, 1)
  {
    h := [State(Journal(None, None, false, None, false, false), None, None, 0, 0, {}, {}, {}, 0)];
    h := Then(h, Save(Resources(true, false, "d", "r", None, None)));
    h := Then(h, PostSecret);
    h := Then(h, CommitSecret);
  }

  lemma {:induction false} Then(h: seq<State>, step: Step) returns (g: seq<State>)
    requires Run(h, false) && Enabled(h[|h| - 1], step, false)
    ensures Run(g, false) && g[|g| - 1] == Apply(h[|h| - 1], step, false)
  {
    Extended(h, step, false);
    g := h + [Apply(h[|h| - 1], step, false)];
  }
}

/** Provisioning and cleanup as the controller runs them. Every store transaction and every API
    request is one step of a run, and others take steps in between. */
module SessionProvision {
  import opened Common
  import opened ProvisionRuns

  datatype Outcome = Done | Failed

  datatype Reply = Created(made: Object) | AlreadyExists | Lost

  predicate OfOthers(step: Step) {
    || step.RequestStop? || step.CommitSecret? || step.CommitPod? || step.DropSecretPost? || step.DropPodPost?
    || step.OthersDeletePod? || step.EndWorker? || step.ForeignSecret? || step.ForeignPod?
  }

  /** The session store and the cluster. The controller holds the session's coordination lock, so no
      other thread of it provisions or cleans up this session meanwhile. */
  class World {
    var s: State
    ghost var h: seq<State>

    ghost predicate Valid()
      reads this
    {
      Run(h, false) && h[|h| - 1] == s
    }

    /** So far every removal has waited until the object's create requests had settled. */
    ghost predicate Settled()
      reads this
    {
      Run(h, true)
    }

    /** The run went on, and the journal has at most been told to stop. */
    twostate predicate OnlyStopped()
      reads this
    {
      && Valid() && old(h) <= h
      && s.j == old(s.j).(stop := s.j.stop) && (old(s.j.stop) ==> s.j.stop)
      && old(s.podsEver) <= s.podsEver && old(s.secretsEver) <= s.secretsEver && old(s.over) <= s.over
    }

    /** Its own Pod, if there is one, stays. */
    twostate predicate PodStays()
      reads this
    {
      Present(old(s.pod)) ==> Present(s.pod) && s.pod.value.uid == old(s.pod).value.uid
    }

    constructor (s: State)
      requires Initial(s)
      ensures Valid() && this.s == s && h == [s]
    {
      this.s, h := s, [s];
    }

    method Take(step: Step)
      requires Valid() && Enabled(s, step, false)
      modifies this
      ensures Valid() && h == old(h) + [s] && s == Apply(old(s), step, false)
    {
      Extended(h, step, false);
      s := Apply(s, step, false);
      h := h + [s];
    }

    /** Any number of steps that are not the controller's. */
    method Others()
      requires Valid()
      modifies this
      ensures OnlyStopped() && PodStays()
    {
      var n: nat := *;
      while n > 0
        invariant OnlyStopped() && PodStays()
      {
        var step: Step := *;
        if OfOthers(step) && Enabled(s, step, false) {
          Take(step);
        }
        n := n - 1;
      }
    }

    /** saveSessionResources: the store refuses a record that takes something back, and may fail. */
    method SaveResources(record: Resources) returns (ok: bool)
      requires Valid() && !s.j.closed && !s.j.cleaned
      requires (record.podRequested ==> record.secretUid.Some?) && Lasts(record.podUid, s.j.podUid) && Made(record.secretUid, s.secretsEver)
      modifies this
      ensures Valid() && old(h) <= h && (old(s.j.stop) ==> s.j.stop)
      ensures s.j == old(s.j).(stop := s.j.stop, resources := if ok then Some(record) else old(s.j.resources))
      ensures old(s.podsEver) <= s.podsEver && old(s.secretsEver) <= s.secretsEver
      ensures ok ==> Preserves(old(s.j.resources), record, old(s.j.stop))
    {
      Others();
      var stored: bool := *;
      ok := stored && Preserves(s.j.resources, record, s.j.stop);
      if ok {
        Take(Save(record));
      }
    }

    /** A create whose reply may be lost while the request lives on. */
    method CreateSecret() returns (r: Reply)
      requires Valid() && SecretIntent(s.j.resources) && !s.j.closed
      modifies this
      ensures OnlyStopped()
      ensures r.Created? ==> r.made.ours && !r.made.deleting && r.made.uid in s.secretsEver
    {
      Take(PostSecret);
      Others();
      var answered: bool := *;
      if answered && Enabled(s, CommitSecret, false) {
        Take(CommitSecret);
        r := Created(s.secret.value);
      } else if answered && s.secret.Some? && Enabled(s, DropSecretPost, false) {
        Take(DropSecretPost);
        r := AlreadyExists;
      } else {
        r := Lost;
      }
    }

    method CreatePod() returns (r: Reply)
      requires Valid() && PodIntent(s.j.resources) && !s.j.closed
      modifies this
      ensures OnlyStopped()
      ensures r.Created? ==> r.made.ours && r.made.uid in s.podsEver
    {
      Take(PostPod);
      Others();
      var answered: bool := *;
      if answered && Enabled(s, CommitPod, false) {
        Take(CommitPod);
        r := Created(s.pod.value);
      } else if answered && s.pod.Some? && Enabled(s, DropPodPost, false) {
        Take(DropPodPost);
        r := AlreadyExists;
      } else {
        r := Lost;
      }
    }

    /** Looking an object up by name; None inside is not found, and the request may fail. */
    method GetSecret() returns (ok: bool, o: Option<Object>)
      requires Valid()
      modifies this
      ensures OnlyStopped() && o == s.secret
      ensures Present(o) ==> o.value.uid in s.secretsEver
    {
      Others();
      BaseInv(h, |h| - 1);
      ok := *;
      o := s.secret;
    }

    method GetPod() returns (ok: bool, o: Option<Object>)
      requires Valid()
      modifies this
      ensures OnlyStopped() && o == s.pod
      ensures Present(o) ==> o.value.uid in s.podsEver
    {
      Others();
      BaseInv(h, |h| - 1);
      ok := *;
      o := s.pod;
    }

    /** ensureSecret, called only while no Secret UID is journaled. */
    method EnsureSecret() returns (uid: Option<Uid>)
      requires Valid() && SecretIntent(s.j.resources) && !s.j.closed
      modifies this
      ensures OnlyStopped()
      ensures Made(uid, s.secretsEver)
    {
      uid := None;
      var ok, o := GetSecret();
      if !ok {
        return;
      }
      if o.None? {
        var r := CreateSecret();
        if r.Created? {
          o := Some(r.made);
        } else if r.AlreadyExists? {
          ok, o := GetSecret();
          if !ok || o.None? {
            return;
          }
        } else {
          return;
        }
      }
      if o.value.ours && !o.value.deleting {
        uid := Some(o.value.uid);
      }
    }

    /** EnsurePod, called only while no Pod UID is journaled. A terminating Pod is still recovered. */
    method EnsurePod(record: Resources) returns (uid: Option<Uid>)
      requires Valid() && s.j.resources == Some(record) && record.podRequested && !s.j.closed
      modifies this
      ensures OnlyStopped()
      ensures Made(uid, s.podsEver)
    {
      uid := None;
      var ok, p := GetPod();
      if !ok {
        return;
      }
      if p.None? {
        var available: bool := *;
        if !available {
          ok, p := GetPod();
          if !ok || p.None? {
            return;
          }
        }
      }
      if p.None? {
        var found, secret := GetSecret();
        if !found || record.secretUid.None? || !Present(secret) || secret.value.deleting || Some(secret.value.uid) != record.secretUid {
          return;
        }
        var r := CreatePod();
        if r.Created? {
          p := Some(r.made);
        } else if r.AlreadyExists? {
          ok, p := GetPod();
          if !ok || p.None? {
            return;
          }
        } else {
          return;
        }
      }
      if p.value.ours {
        uid := Some(p.value.uid);
      }
    }

    /** BindSessionPod. */
    method BindSessionPod(uid: Uid) returns (ok: bool)
      requires Valid() && !s.j.closed && uid in s.podsEver
      modifies this
      ensures Valid() && old(h) <= h && (old(s.j.stop) ==> s.j.stop)
      ensures s.j == old(s.j).(stop := s.j.stop, podUid := if ok then Some(uid) else old(s.j.podUid))
      ensures old(s.podsEver) <= s.podsEver && old(s.secretsEver) <= s.secretsEver
    {
      Others();
      var stored: bool := *;
      ok := stored && (s.j.podUid.Some? ==> s.j.podUid.value == uid);
      if ok {
        Take(Bind(uid));
      }
    }

    /** The journal and the record in hand agree, and the session is open. */
    ghost predicate Holds(record: Resources)
      reads this
    {
      Valid() && !s.j.closed && !s.j.cleaned && s.j.resources == Some(record) && PodBase(s) && SecretBase(s)
    }

    method ResolveSecret(record: Resources, stopping: bool) returns (o: Outcome, next: Resources, halted: bool)
      requires Holds(record) && (stopping ==> s.j.stop)
      modifies this
      ensures Valid() && old(h) <= h && !s.j.closed && !s.j.cleaned && (old(s.j.stop) ==> s.j.stop)
      ensures o == Done ==> Holds(next) && s.j.podUid == old(s.j.podUid) && (halted ==> stopping && Resolved(s.j))
      ensures o == Done && !halted ==> next.secretUid.Some?
    {
      BaseInv(h, |h| - 1);
      next, halted, o := record, false, Failed;
      if next.secretUid.Some? {
        return Done, next, false;
      }
      if !next.secretRequested {
        if stopping {
          return Done, next, true;
        }
        next := next.(secretRequested := true);
        var ok := SaveResources(next);
        if !ok {
          return;
        }
      }
      var uid := EnsureSecret();
      if uid.None? {
        return;
      }
      next := next.(secretUid := uid);
      var ok := SaveResources(next);
      if ok {
        BaseInv(h, |h| - 1);
        o := Done;
      }
    }

    method ResolvePod(record: Resources) returns (o: Outcome)
      requires Holds(record) && record.secretUid.Some?
      modifies this
      ensures Valid() && old(h) <= h && !s.j.closed && !s.j.cleaned && (old(s.j.stop) ==> s.j.stop)
      ensures o == Done ==> Resolved(s.j)
    {
      o := Failed;
      Others();
      var stopping, next := s.j.stop, record;
      if next.podUid.Some? {
        return Done;
      }
      if !next.podRequested {
        if stopping {
          return Done;
        }
        next := next.(podRequested := true);
        var ok := SaveResources(next);
        if !ok {
          return;
        }
      }
      var uid := EnsurePod(next);
      if uid.None? {
        return;
      }
      var bound := BindSessionPod(uid.value);
      if !bound {
        return;
      }
      next := next.(podUid := uid);
      var ok := SaveResources(next);
      if ok {
        o := Done;
      }
    }

    /** The record to work with: a new one, or the journaled one brought up to the bound UID. */
    method OpenRecord(digest: string, request: string) returns (o: Outcome, record: Resources, halted: bool)
      requires Valid() && !s.j.closed && !s.j.cleaned
      modifies this
      ensures Valid() && old(h) <= h && !s.j.closed && !s.j.cleaned && (old(s.j.stop) ==> s.j.stop)
      ensures o == Done ==> if halted then Resolved(s.j) else Holds(record)
    {
      var session := s.j;
      BaseInv(h, |h| - 1);
      o, halted := Failed, false;
      if session.resources.None? {
        record := Resources(false, false, digest, request, None, None);
        if session.stop {
          return Done, record, true;
        }
        var ok := SaveResources(record);
        if !ok {
          return;
        }
      } else {
        record := session.resources.value;
      }
      if session.podUid.Some? {
        if record.podUid.Some? && record.podUid != session.podUid {
          return;
        }
        record := record.(podUid := session.podUid);
        var ok := SaveResources(record);
        if !ok {
          return;
        }
      }
      BaseInv(h, |h| - 1);
      o := Done;
    }

    /** ensureSessionResources. When it succeeds every request ever issued has become a journaled
        object, so that an open session may be closed on a stop. */
    method EnsureSessionResources(digest: string, request: string) returns (o: Outcome)
      requires Valid()
      modifies this
      ensures Valid() && old(h) <= h && (old(s.j.stop) ==> s.j.stop)
      ensures s.j.closed == old(s.j.closed) && s.j.cleaned == old(s.j.cleaned)
      ensures o == Done && !s.j.closed && !s.j.cleaned ==> Resolved(s.j)
    {
      Others();
      if s.j.cleaned || s.j.closed {
        return Done;
      }
      var stopping := s.j.stop;
      var r, record, halted := OpenRecord(digest, request);
      if r == Failed || halted {
        return r;
      }
      var valid: bool := *;
      if !valid {
        return Failed;
      }
      r, record, halted := ResolveSecret(record, stopping);
      if r == Failed || halted {
        return r;
      }
      o := ResolvePod(record);
    }

    /** Deleting by name with a UID precondition; absence is success. */
    method RequestPodDeletion(uid: Uid) returns (ok: bool)
      requires Valid() && s.j.resources.Some? && s.j.resources.value.podUid == Some(uid)
      modifies this
      ensures OnlyStopped()
    {
      Others();
      ok := *;
      if s.pod.Some? && s.pod.value.uid != uid {
        ok := false;
      }
      if ok && s.pod.Some? {
        Take(DeletePod);
      }
    }

    /** releaseTerminationFinalizer: a deleted Pod goes once nothing else holds it. Of this session's
        Pods none but the named one can go. */
    method ReleaseFinalizer(uid: Uid) returns (ok: bool)
      requires Valid() && s.j.closed && s.j.resources.Some? && s.j.resources.value.podUid == Some(uid)
      modifies this
      ensures OnlyStopped()
      ensures Present(old(s.pod)) && !(ok && old(s.pod).value.uid == uid) ==> Present(s.pod) && s.pod.value.uid == old(s.pod).value.uid
    {
      Others();
      ok := *;
      var lastHold: bool := *;
      if ok && lastHold && s.pod.Some? && s.pod.value.uid == uid && s.pod.value.deleting {
        Take(ReleasePod);
      }
    }

    method RequestSecretDeletion(uid: Uid) returns (ok: bool)
      requires Valid() && s.j.closed && s.j.resources.Some? && s.j.resources.value.secretUid == Some(uid)
      modifies this
      ensures OnlyStopped()
    {
      Others();
      ok := *;
      if s.secret.Some? && s.secret.value.uid != uid {
        ok := false;
      }
      if ok && s.secret.Some? {
        Take(DeleteSecret);
      }
    }

    method CleanupPod(record: Resources) returns (o: Outcome)
      requires Valid() && s.j.closed && s.j.resources == Some(record)
      modifies this
      ensures OnlyStopped()
      ensures o == Done ==> !Present(s.pod)
    {
      o := Failed;
      var ok, p := GetPod();
      if !ok {
        return;
      }
      if p.None? {
        return Done;
      }
      if record.podUid.None? || !p.value.ours || record.podUid.value != p.value.uid {
        return;
      }
      if !p.value.deleting {
        ok := RequestPodDeletion(record.podUid.value);
        if !ok {
          return;
        }
      }
      ok, p := GetPod();
      if !ok {
        return;
      }
      if p.Some? {
        if !p.value.ours || record.podUid.value != p.value.uid {
          return;
        }
        ok := ReleaseFinalizer(p.value.uid);
        if !ok {
          return;
        }
      }
      ok, p := GetPod();
      if ok && p.None? {
        o := Done;
      }
    }

    /** Cleanup removes the journaled objects of a closed session and nothing else. That the Pod found
        gone is still gone at the end depends on its requests having settled. */
    method Cleanup(record: Resources) returns (o: Outcome)
      requires Valid() && s.j.closed && s.j.resources == Some(record)
      modifies this
      ensures OnlyStopped()
      ensures o == Done ==> !Present(s.secret) && (Settled() ==> !Present(s.pod))
    {
      o := CleanupPod(record);
      if o == Failed {
        return;
      }
      ghost var gone := |h| - 1;
      o := Failed;
      var unreferenced: bool := *;
      if !unreferenced {
        return;
      }
      var ok, secret := GetSecret();
      if !ok {
        return;
      }
      if secret.Some? {
        if record.secretUid.None? || !secret.value.ours || record.secretUid.value != secret.value.uid {
          return;
        }
        ok := RequestSecretDeletion(record.secretUid.value);
        if !ok {
          return;
        }
      }
      ok, secret := GetSecret();
      if ok && secret.None? {
        if Settled() {
          NothingAfterCleanup(h, gone, |h| - 1);
        }
        o := Done;
      }
    }

    /** Resolves what an intent left behind, then closes the session once the end of its worker has been
        observed. What ObserveTermination reports as stopped is over: see Termination.StoppedStaysStopped. */
    method CloseSession(digest: string, request: string) returns (o: Outcome)
      requires Valid() && s.j.stop && !s.j.cleaned && !s.j.closed
      modifies this
      ensures Valid() && old(h) <= h
      ensures o == Done ==> s.j.closed && !s.j.cleaned && s.j.stop && Resolved(s.j) && s.podsEver <= s.over
    {
      if s.j.resources.Some? {
        var ensured := EnsureSessionResources(digest, request);
        if ensured == Failed {
          return Failed;
        }
      }
      o := ObserveEnd();
      if o == Failed {
        return;
      }
      Others();
      ghost var at := |h| - 1;
      Take(Close);
      ClosesOnlyOver(h, at, false);
    }

    method ObserveEnd() returns (o: Outcome)
      requires Valid() && s.j.stop && !s.j.closed && Resolved(s.j)
      modifies this
      ensures Valid() && old(h) <= h && s.j == old(s.j).(evidence := s.j.evidence)
      ensures o == Done ==> s.j.evidence.Some?
      ensures s.j.evidence != old(s.j.evidence) ==>
        if s.j.podUid.None? then s.j.evidence == Some(NoWorker) else s.j.evidence == Some(WorkerOver) && s.j.podUid.value in s.over
    {
      Others();
      o := Failed;
      if s.j.evidence.Some? {
        return Done;
      }
      var reported: bool := *;
      if s.j.podUid.None? {
        Take(Observe(NoWorker));
        o := Done;
      } else if reported && s.j.podUid.value in s.over {
        Take(Observe(WorkerOver));
        o := Done;
      }
    }

    /** reconcileSessionStop, from an observed stop: issued requests are resolved before the session
        closes, and it is cleaned only when nothing of it is left, then or at any later time. */
    method ReconcileSessionStop(digest: string, request: string) returns (o: Outcome)
      requires Valid() && s.j.stop
      modifies this
      ensures Valid() && old(h) <= h
      ensures o == Done && !old(s.j.cleaned) ==> s.j.cleaned && s.j.closed && !Present(s.secret) && (Settled() ==> !Present(s.pod))
    {
      Others();
      if s.j.cleaned {
        return Done;
      }
      if !s.j.closed {
        var closing := CloseSession(digest, request);
        if closing == Failed {
          return Failed;
        }
      }
      if s.j.resources.Some? {
        var cleaned := Cleanup(s.j.resources.value);
        if cleaned == Failed {
          return Failed;
        }
      } else {
        BaseInv(h, |h| - 1);
      }
      MarkSessionCleaned();
      o := Done;
    }

    method MarkSessionCleaned()
      requires Valid() && s.j.closed
      modifies this
      ensures Valid() && old(h) <= h && s == old(s).(j := old(s.j).(cleaned := true))
      ensures Settled() ==> old(Settled())
    {
      ghost var before := h;
      Take(MarkCleaned);
      if Settled() {
        SettledBefore(h, |before|);
        assert h[..|before|] == before;
      }
    }
  }
}
