/** What the evidence about one conversation establishes, whatever order it arrives in
    (observeContinuityFacts of src/internal/controller/continuity_selection.go). */
module ContinuityEvidence {
  import opened Common
  import opened ContinuityRecords
  import opened Indexing

  datatype Evidence = Evidence(
    grants: seq<Grant>,
    storages: seq<Storage>,
    terminals: map<string, Terminal>,
    history: seq<Row>,
    historyKnown: bool,
    warmSessions: map<string, Session>
  )

  datatype Facts = Facts(
    key: Key,
    compatibility: string,
    history: seq<Row>,
    rows: map<string, Row>,
    grants: map<string, Grant>,
    witnesses: map<string, Grant>,
    storages: map<string, Storage>,
    terminals: map<string, Terminal>
  )

  const STORAGE_ID := (s: Storage) => s.id
  const ATTEMPT_ID := (g: Grant) => g.attemptId
  const ROW_ID := (r: Row) => r.id

  /** Filling a map from a list, giving up at a repeated or malformed identity. */
  method IndexStorages(s: seq<Storage>) returns (m: Option<map<string, Storage>>)
    ensures m.Some? <==> Indexed(STORAGE_ID, s).Some? && forall x :: x in s ==> IsUuid(x.id)
    ensures m.Some? ==> m == Indexed(STORAGE_ID, s)
  {
    var r: map<string, Storage> := map[];
    for i := 0 to |s|
      invariant Indexed(STORAGE_ID, s[..i]) == Some(r)
      invariant forall x :: x in s[..i] ==> IsUuid(x.id)
    {
      assert s[..i + 1] == s[..i] + [s[i]];
      if s[i].id in r || !IsUuid(s[i].id) {
        if Indexed(STORAGE_ID, s).Some? {
          PrefixIndexed(STORAGE_ID, s, i + 1);
        }
        assert s[i] in s;
        return None;
      }
      r := r[s[i].id := s[i]];
    }
    assert s[..|s|] == s;
    m := Some(r);
  }

  method IndexGrants(s: seq<Grant>) returns (m: Option<map<string, Grant>>)
    ensures m.Some? <==> Indexed(ATTEMPT_ID, s).Some? && forall x :: x in s ==> IsUuid(x.attemptId)
    ensures m.Some? ==> m == Indexed(ATTEMPT_ID, s)
  {
    var r: map<string, Grant> := map[];
    for i := 0 to |s|
      invariant Indexed(ATTEMPT_ID, s[..i]) == Some(r)
      invariant forall x :: x in s[..i] ==> IsUuid(x.attemptId)
    {
      assert s[..i + 1] == s[..i] + [s[i]];
      if s[i].attemptId in r || !IsUuid(s[i].attemptId) {
        if Indexed(ATTEMPT_ID, s).Some? {
          PrefixIndexed(ATTEMPT_ID, s, i + 1);
        }
        assert s[i] in s;
        return None;
      }
      r := r[s[i].attemptId := s[i]];
    }
    assert s[..|s|] == s;
    m := Some(r);
  }

  /** Rows of other tasks of this agent on this conversation's subject. */
  predicate InScope(claim: Claim, key: Key, r: Row) {
    && r.id != claim.id && r.agentId == key.agentId
    && (key.kind == Issue ==> r.issueId == key.subjectId)
    && (key.kind == AgentDM ==> r.chatSessionId == key.subjectId)
  }

  predicate RowUsable(claim: Claim, key: Key, r: Row) {
    IsUuid(r.id) && r.workspaceId == key.workspaceId && (InScope(claim, key, r) ==> ObservationTime(r).Some?)
  }

  function Scope(claim: Claim, key: Key): Row -> bool {
    r => InScope(claim, key, r)
  }

  ghost predicate HistoryUsable(claim: Claim, key: Key, h: seq<Row>) {
    Indexed(ROW_ID, h).Some? && forall r :: r in h ==> RowUsable(claim, key, r)
  }

  /** The rows of p have been taken in. */
  ghost predicate Scanned(claim: Claim, key: Key, p: seq<Row>, seen: set<string>, history: seq<Row>, rows: map<string, Row>) {
    && HistoryUsable(claim, key, p) && seen == Indexed(ROW_ID, p).value.Keys
    && history == Where(Scope(claim, key), p) && Indexed(ROW_ID, history) == Some(rows)
  }

  lemma {:induction false} ScanStep(claim: Claim, key: Key, h: seq<Row>, i: nat, seen: set<string>, history: seq<Row>, rows: map<string, Row>)
    requires i < |h| && Scanned(claim, key, h[..i], seen, history, rows) && RowUsable(claim, key, h[i]) && h[i].id !in seen
    ensures if InScope(claim, key, h[i]) then Scanned(claim, key, h[..i + 1], seen + {h[i].id}, history + [h[i]], rows[h[i].id := h[i]])
            else Scanned(claim, key, h[..i + 1], seen + {h[i].id}, history, rows)
  {
    assert h[..i + 1] == h[..i] + [h[i]];
    ScanRow(claim, key, h[..i], seen, history, rows, h[i]);
  }

  lemma {:induction false} ScanRow(claim: Claim, key: Key, p: seq<Row>, seen: set<string>, history: seq<Row>, rows: map<string, Row>, row: Row)
    requires Scanned(claim, key, p, seen, history, rows) && RowUsable(claim, key, row) && row.id !in seen
    ensures if InScope(claim, key, row) then Scanned(claim, key, p + [row], seen + {row.id}, history + [row], rows[row.id := row])
            else Scanned(claim, key, p + [row], seen + {row.id}, history, rows)
  {
    var q := p + [row];
    assert q[..|p|] == p;
    WhereAppend(Scope(claim, key), q, |p|);
    assert q[..|p| + 1] == q;
    IndexedAppend(ROW_ID, p, row);
    if InScope(claim, key, row) {
      WhereIndexed(ROW_ID, Scope(claim, key), q);
      IndexedAppend(ROW_ID, history, row);
    }
  }

  lemma {:induction false} ScanFails(claim: Claim, key: Key, h: seq<Row>, i: nat, seen: set<string>, history: seq<Row>, rows: map<string, Row>)
    requires i < |h| && Scanned(claim, key, h[..i], seen, history, rows)
    requires !RowUsable(claim, key, h[i]) || h[i].id in seen
    ensures !HistoryUsable(claim, key, h)
  {
    if Indexed(ROW_ID, h).Some? {
      PrefixIndexed(ROW_ID, h, i + 1);
      assert h[..i + 1] == h[..i] + [h[i]];
      IndexedAppend(ROW_ID, h[..i], h[i]);
      assert h[i] in h;
    }
  }

  method ScopeHistory(claim: Claim, key: Key, h: seq<Row>) returns (ok: bool, history: seq<Row>, rows: map<string, Row>)
    ensures ok <==> HistoryUsable(claim, key, h)
    ensures ok ==> history == Where(Scope(claim, key), h) && Indexed(ROW_ID, history) == Some(rows)
  {
    var seen: set<string> := {};
    history, rows := [], map[];
    for i := 0 to |h|
      invariant Scanned(claim, key, h[..i], seen, history, rows)
    {
      var row := h[i];
      if !IsUuid(row.id) || row.id in seen || row.workspaceId != key.workspaceId || (InScope(claim, key, row) && ObservationTime(row).None?) {
        ScanFails(claim, key, h, i, seen, history, rows);
        return false, history, rows;
      }
      ScanStep(claim, key, h, i, seen, history, rows);
      seen := seen + {row.id};
      if InScope(claim, key, row) {
        rows := rows[row.id := row];
        history := history + [row];
      }
    }
    assert h[..|h|] == h;
    ok := true;
  }

  /** The latest local writer may still run: this retains its fence, and does not authorize the next one. */
  predicate ValidLocalWriter(key: Key, compatibility: string, g: Grant, s: Storage) {
    && !g.legacy && g.sessionProtocol && g.conversation == key && g.compatibility == compatibility
    && IsUuid(g.taskId) && IsUuid(g.workerSessionId) && IsUuid(g.runtimeId) && g.turnSequence != 0
    && g.selection.Some? && g.selection.value.reuseEligible && g.storageId == s.id && g.taskRoot == s.taskRoot
    && g.anchorTaskId == s.anchorTaskId && s.conversation == key
    && g.workspaceCompatibility == s.workspaceCompatibility && s.canonicalRoot
    && g.envelope.Some?
    && var c := g.envelope.value;
       && c.startClaimSupported && c.id == g.taskId && c.runtimeId == g.runtimeId
       && c.workspaceId == g.workspaceId && c.agentId == g.agentId && ObservesConversation(c, key)
  }

  predicate WitnessMatches(g: Grant, w: Witness, t: Terminal) {
    && t.taskId == g.taskId && t.attemptId == g.attemptId && t.source == "worker" && t.state == "delivered"
    && !t.recovered && t.receipt
    && w.taskId == g.taskId && w.attemptId == g.attemptId && w.workerSessionId == g.workerSessionId
    && w.storageId == g.storageId && w.turnSequence == g.turnSequence && w.acknowledgedAt != 0
    && w.requestDigest == t.requestDigest && w.resultDigest == t.resultDigest
    && w.workDir == g.taskRoot + "/workdir" && t.requestDigest == t.bodyDigest
  }

  predicate FailedWitness(g: Grant, sel: Selection, w: Witness, p: Pointers, t: Terminal) {
    && t.kind == "fail" && p.resumeRejectedTransient && p.sessionId == "" && w.sessionId == ""
    && !p.sessionRolloutMissing && p.missingSessionId == "" && p.retiredSessionId == ""
    && g.preparedProvider == Some("pi") && sel.mode == Resume
    && sel.sessionId != "" && g.resumeSession == sel.sessionId
    && sel.storageId == g.storageId && sel.workDir == w.workDir
  }

  predicate CompletedWitness(w: Witness, p: Pointers, t: Terminal) {
    && t.kind == "complete" && w.status == "completed" && !p.resumeRejectedTransient
    && w.sessionId == if p.sessionRolloutMissing || p.sessionId == p.retiredSessionId then "" else p.sessionId
  }

  predicate ValidWitness(f: Facts, g: Grant) {
    && g.storageId in f.storages && ValidLocalWriter(f.key, f.compatibility, g, f.storages[g.storageId])
    && g.startConfirmed && g.proof.Some? && g.attemptId in f.terminals
    && WitnessMatches(g, g.proof.value, f.terminals[g.attemptId])
    && g.pendingResume.Some? && g.pendingResume.value.workDir == g.proof.value.workDir
    && if g.proof.value.status == "failed"
       then FailedWitness(g, g.selection.value, g.proof.value, g.pendingResume.value, f.terminals[g.attemptId])
       else CompletedWitness(g.proof.value, g.pendingResume.value, f.terminals[g.attemptId])
  }

  /** A valid witness that the visible row of its task, if there is one, accepts. */
  predicate Qualifies(f: Facts, g: Grant) {
    && ValidWitness(f, g)
    && (g.taskId in f.rows ==>
          var row, t, c := f.rows[g.taskId], f.terminals[g.attemptId], g.envelope.value;
          || (g.proof.value.status == "completed" && AcceptsCompletion(row, c, t))
          || (g.proof.value.status == "failed" && AcceptsTransientFailure(row, c, t)))
  }

  function Qualifying(f: Facts): Grant -> bool {
    g => Qualifies(f, g)
  }

  function Qualified(accepts: Grant -> bool, grants: seq<Grant>): set<Grant> {
    set g | g in grants && accepts(g)
  }

  /** The only qualifying grant of its task. */
  ghost predicate Sole(q: set<Grant>, g: Grant) {
    g in q && forall h :: h in q && h.taskId == g.taskId ==> h == g
  }

  predicate HasStatus(g: Grant, status: string) {
    g.proof.Some? && g.proof.value.status == status
  }

  /** The completed execution a transiently rejected resume went back to. */
  predicate CitedBy(g: Grant, s: Grant) {
    && HasStatus(s, "completed") && g.selection.Some?
    && GrantSource(s) == g.selection.value.sessionSource && s.storageId == g.storageId
    && s.proof.value.sessionId == g.selection.value.sessionId
    && s.proof.value.workDir == g.selection.value.workDir
  }

  ghost predicate Surviving(q: set<Grant>, g: Grant) {
    Sole(q, g) && (HasStatus(g, "failed") ==> exists s :: Sole(q, s) && CitedBy(g, s))
  }

  /** w holds exactly the sole qualifying grants, by task. */
  ghost predicate HoldsSole(q: set<Grant>, w: map<string, Grant>) {
    && (forall g :: Sole(q, g) ==> g.taskId in w && w[g.taskId] == g)
    && (forall t :: t in w ==> Sole(q, w[t]) && w[t].taskId == t)
  }

  /** w holds exactly the surviving grants, by task. */
  ghost predicate HoldsSurviving(q: set<Grant>, w: map<string, Grant>) {
    && (forall g :: Surviving(q, g) ==> g.taskId in w && w[g.taskId] == g)
    && (forall t :: t in w ==> Surviving(q, w[t]) && w[t].taskId == t)
  }

  /** Nothing but the set of qualifying grants decides the witnesses. */
  lemma {:induction false} SurvivingUnique(q: set<Grant>, v: map<string, Grant>, w: map<string, Grant>)
    requires HoldsSurviving(q, v) && HoldsSurviving(q, w)
    ensures v == w
  {
  }

  /** Qualifying grants counted so far: the last of each task, and the tasks with more than one. */
  ghost predicate Tallied(q: set<Grant>, w: map<string, Grant>, many: set<string>) {
    && (forall g :: g in q ==> g.taskId in w && (g.taskId in many || w[g.taskId] == g))
    && (forall t :: t in w ==> w[t] in q && w[t].taskId == t)
    && (forall t :: t in many ==> t in w && Rivalled(q, w[t]))
  }

  ghost predicate Rivalled(q: set<Grant>, g: Grant) {
    exists h :: h in q && h.taskId == g.taskId && h != g
  }

  lemma {:induction false} TallyAnother(q: set<Grant>, x: Grant, w: map<string, Grant>, many: set<string>)
    requires Tallied(q, w, many) && x !in q
    ensures Tallied(q + {x}, w[x.taskId := x], if x.taskId in w then many + {x.taskId} else many)
  {
    var v, more := w[x.taskId := x], if x.taskId in w then many + {x.taskId} else many;
    forall t | t in more ensures t in v && Rivalled(q + {x}, v[t]) {
      if t == x.taskId {
        assert w[t] in q + {x};
      } else {
        var h :| h in q && h.taskId == w[t].taskId && h != w[t];
        assert h in q + {x};
      }
    }
  }

  lemma {:induction false} TallySole(q: set<Grant>, w: map<string, Grant>, many: set<string>)
    requires Tallied(q, w, many)
    ensures HoldsSole(q, w - many)
  {
    forall g | g in q ensures Sole(q, g) <==> g.taskId !in many {
      if g.taskId in many {
        assert w[g.taskId] in q;
      }
    }
  }

  /** validTransientSource, against whatever witnesses are left. */
  predicate ValidTransientSource(w: map<string, Grant>, g: Grant) {
    && g.selection.Some?
    && g.selection.value.sessionSource.taskId in w && CitedBy(g, w[g.selection.value.sessionSource.taskId])
  }

  predicate Deletable(w: map<string, Grant>, g: Grant) {
    HasStatus(g, "failed") && !ValidTransientSource(w, g)
  }

  /** A pass that has settled every task but the pending ones, starting from v. */
  ghost predicate PassAt(v: map<string, Grant>, w: map<string, Grant>, pending: set<string>) {
    && pending <= w.Keys <= v.Keys
    && (forall t :: t in w ==> w[t] == v[t])
    && (forall t :: t in v && t !in pending ==> (t in w <==> !Deletable(v, v[t])))
  }

  /** Only failed executions are deleted and only completed ones are cited, so nothing a later
      deletion asks about has changed. */
  lemma {:induction false} PassStep(v: map<string, Grant>, w: map<string, Grant>, pending: set<string>, t: string)
    requires PassAt(v, w, pending) && t in pending
    ensures PassAt(v, if Deletable(w, w[t]) then w - {t} else w, pending - {t})
  {
    var g := w[t];
    if g.selection.Some? {
      var c := g.selection.value.sessionSource.taskId;
      if c in v && CitedBy(g, v[c]) {
        assert !Deletable(v, v[c]);
        assert c in w;
      }
    }
    assert Deletable(w, g) <==> Deletable(v, g);
  }

  lemma {:induction false} TransientSourceMeaning(q: set<Grant>, v: map<string, Grant>, g: Grant)
    requires HoldsSole(q, v)
    ensures ValidTransientSource(v, g) <==> exists s :: Sole(q, s) && CitedBy(g, s)
  {
    if ValidTransientSource(v, g) {
      assert Sole(q, v[g.selection.value.sessionSource.taskId]);
    }
    if s :| Sole(q, s) && CitedBy(g, s) {
      assert v[s.taskId] == s;
    }
  }

  lemma {:induction false} PassEnds(q: set<Grant>, v: map<string, Grant>, w: map<string, Grant>)
    requires HoldsSole(q, v) && PassAt(v, w, {})
    ensures HoldsSurviving(q, w)
  {
    forall g | Sole(q, g) ensures Deletable(v, g) <==> !Surviving(q, g) {
      TransientSourceMeaning(q, v, g);
    }
  }

  /** Collecting witnesses. Both deleting loops range over a map, in any order, and the second asks
      about the map it is deleting from: every order leaves the surviving grants. */
  method CollectWitnesses(f: Facts, grants: seq<Grant>) returns (w: map<string, Grant>)
    requires Indexed(ATTEMPT_ID, grants).Some?
    ensures HoldsSurviving(Qualified(Qualifying(f), grants), w)
  {
    w := CollectAccepted(Qualifying(f), grants);
  }

  method CollectAccepted(accepts: Grant -> bool, grants: seq<Grant>) returns (w: map<string, Grant>)
    requires Indexed(ATTEMPT_ID, grants).Some?
    ensures HoldsSurviving(Qualified(accepts, grants), w)
  {
    var last, ambiguous := TallyWitnesses(accepts, grants);
    w := last;
    var pending := ambiguous;
    while pending != {}
      invariant pending <= ambiguous && w == last - (ambiguous - pending)
    {
      var t :| t in pending;
      w, pending := w - {t}, pending - {t};
    }
    assert w == last - ambiguous;
    TallySole(Qualified(accepts, grants), last, ambiguous);
    w := DropUnsourced(Qualified(accepts, grants), w);
  }

  lemma {:induction false} TallyStep(accepts: Grant -> bool, grants: seq<Grant>, i: nat, w: map<string, Grant>, many: set<string>)
    requires Indexed(ATTEMPT_ID, grants).Some? && i < |grants| && Tallied(Qualified(accepts, grants[..i]), w, many)
    ensures var g := grants[i];
            if accepts(g) then Tallied(Qualified(accepts, grants[..i + 1]), w[g.taskId := g], if g.taskId in w then many + {g.taskId} else many)
            else Tallied(Qualified(accepts, grants[..i + 1]), w, many)
  {
    QualifiedAppend(accepts, grants, i);
    if accepts(grants[i]) {
      TallyAnother(Qualified(accepts, grants[..i]), grants[i], w, many);
    } else {
      assert Qualified(accepts, grants[..i + 1]) == Qualified(accepts, grants[..i]);
    }
  }

  method TallyWitnesses(accepts: Grant -> bool, grants: seq<Grant>) returns (w: map<string, Grant>, ambiguous: set<string>)
    requires Indexed(ATTEMPT_ID, grants).Some?
    ensures Tallied(Qualified(accepts, grants), w, ambiguous)
  {
    w, ambiguous := map[], {};
    for i := 0 to |grants|
      invariant Tallied(Qualified(accepts, grants[..i]), w, ambiguous)
    {
      var g := grants[i];
      TallyStep(accepts, grants, i, w, ambiguous);
      if accepts(g) {
        if g.taskId in w {
          ambiguous := ambiguous + {g.taskId};
        }
        w := w[g.taskId := g];
      }
    }
    assert grants[..|grants|] == grants;
  }

  method DropUnsourced(ghost q: set<Grant>, v: map<string, Grant>) returns (w: map<string, Grant>)
    requires HoldsSole(q, v)
    ensures HoldsSurviving(q, w)
  {
    w := v;
    var pending := w.Keys;
    while pending != {}
      invariant PassAt(v, w, pending)
    {
      var t :| t in pending;
      PassStep(v, w, pending, t);
      if Deletable(w, w[t]) {
        w := w - {t};
      }
      pending := pending - {t};
    }
    PassEnds(q, v, w);
  }

  lemma {:induction false} QualifiedAppend(accepts: Grant -> bool, grants: seq<Grant>, i: nat)
    requires Indexed(ATTEMPT_ID, grants).Some? && i < |grants|
    ensures grants[i] !in Qualified(accepts, grants[..i])
    ensures Qualified(accepts, grants[..i + 1]) == Qualified(accepts, grants[..i]) + if accepts(grants[i]) then {grants[i]} else {}
  {
    PrefixIndexed(ATTEMPT_ID, grants, i + 1);
    var p := grants[..i + 1];
    assert p == grants[..i] + [grants[i]] && p[..i] == grants[..i];
    IndexedLists(ATTEMPT_ID, p[..i]);
  }

  ghost function Witnesses(q: set<Grant>): (w: map<string, Grant>)
    ensures HoldsSurviving(q, w)
  {
    map g | g in q && Surviving(q, g) :: g.taskId := g
  }

  /** A task has a witness exactly when one and only one grant for it qualifies and, if that
      execution failed, the completed execution it cites is itself a surviving witness. */
  lemma {:induction false} WitnessExactly(q: set<Grant>, w: map<string, Grant>, t: string)
    requires HoldsSurviving(q, w)
    ensures t in w <==> exists g :: OnlyFor(q, t, g) && (HasStatus(g, "failed") ==> ValidTransientSource(w, g))
  {
    if t in w {
      SurvivorIsSourced(q, w, w[t]);
      assert OnlyFor(q, t, w[t]);
    }
    if g :| OnlyFor(q, t, g) && (HasStatus(g, "failed") ==> ValidTransientSource(w, g)) {
      SourcedSurvives(q, w, g);
    }
  }

  /** One and only one qualifying grant is for the task. */
  ghost predicate OnlyFor(q: set<Grant>, t: string, g: Grant) {
    g in q && forall h :: h in q ==> (h.taskId == t <==> h == g)
  }

  lemma {:induction false} SurvivorIsSourced(q: set<Grant>, w: map<string, Grant>, g: Grant)
    requires HoldsSurviving(q, w) && Surviving(q, g)
    ensures HasStatus(g, "failed") ==> ValidTransientSource(w, g)
  {
    if HasStatus(g, "failed") {
      var s :| Sole(q, s) && CitedBy(g, s);
      assert Surviving(q, s);
    }
  }

  lemma {:induction false} SourcedSurvives(q: set<Grant>, w: map<string, Grant>, g: Grant)
    requires HoldsSurviving(q, w) && Sole(q, g) && (HasStatus(g, "failed") ==> ValidTransientSource(w, g))
    ensures Surviving(q, g)
  {
    if HasStatus(g, "failed") {
      assert Sole(q, w[g.selection.value.sessionSource.taskId]);
    }
  }

  function WithoutWitnesses(claim: Claim, key: Key, compatibility: string, e: Evidence): Option<Facts> {
    var history := Where(Scope(claim, key), e.history);
    var grants, storages, rows := Indexed(ATTEMPT_ID, e.grants), Indexed(STORAGE_ID, e.storages), Indexed(ROW_ID, history);
    if grants.None? || storages.None? || rows.None? then None
    else Some(Facts(key, compatibility, history, rows.value, grants.value, map[], storages.value, e.terminals))
  }

  ghost predicate EvidenceUsable(claim: Claim, key: Key, e: Evidence) {
    && Indexed(STORAGE_ID, e.storages).Some? && (forall s :: s in e.storages ==> IsUuid(s.id))
    && Indexed(ATTEMPT_ID, e.grants).Some? && (forall g :: g in e.grants ==> IsUuid(g.attemptId))
    && HistoryUsable(claim, key, e.history)
  }

  lemma {:induction false} UsableHasFacts(claim: Claim, key: Key, compatibility: string, e: Evidence)
    requires EvidenceUsable(claim, key, e)
    ensures WithoutWitnesses(claim, key, compatibility, e).Some?
  {
    WhereIndexed(ROW_ID, Scope(claim, key), e.history);
  }

  ghost function ObservedFacts(claim: Claim, key: Key, compatibility: string, e: Evidence): Option<Facts> {
    if !EvidenceUsable(claim, key, e) then None
    else
      UsableHasFacts(claim, key, compatibility, e);
      var f := WithoutWitnesses(claim, key, compatibility, e).value;
      Some(f.(witnesses := Witnesses(Qualified(Qualifying(f), e.grants))))
  }

  method ObserveContinuityFacts(claim: Claim, key: Key, compatibility: string, e: Evidence) returns (r: Option<Facts>)
    ensures r == ObservedFacts(claim, key, compatibility, e)
  {
    var storages := IndexStorages(e.storages);
    if storages.None? {
      return None;
    }
    var grants := IndexGrants(e.grants);
    if grants.None? {
      return None;
    }
    var ok, history, rows := ScopeHistory(claim, key, e.history);
    if !ok {
      return None;
    }
    var f := Facts(key, compatibility, history, rows, grants.value, map[], storages.value, e.terminals);
    var w := CollectWitnesses(f, e.grants);
    SurvivingUnique(Qualified(Qualifying(f), e.grants), w, Witnesses(Qualified(Qualifying(f), e.grants)));
    r := Some(f.(witnesses := w));
  }

  /** The same evidence listed in another order. */
  ghost predicate Reordered(a: Evidence, b: Evidence) {
    && multiset(a.grants) == multiset(b.grants) && multiset(a.storages) == multiset(b.storages)
    && multiset(a.history) == multiset(b.history)
    && a.terminals == b.terminals && a.historyKnown == b.historyKnown && a.warmSessions == b.warmSessions
  }

  lemma {:induction false} UsablePermuted(claim: Claim, key: Key, a: Evidence, b: Evidence)
    requires Reordered(a, b) && EvidenceUsable(claim, key, a)
    ensures EvidenceUsable(claim, key, b)
  {
    IndexedPermuted(STORAGE_ID, a.storages, b.storages);
    IndexedPermuted(ATTEMPT_ID, a.grants, b.grants);
    IndexedPermuted(ROW_ID, a.history, b.history);
    SameMembers(a.storages, b.storages);
    SameMembers(a.grants, b.grants);
    SameMembers(a.history, b.history);
  }

  /** Facts that differ in the order of their history only. */
  ghost predicate SameFacts(a: Facts, b: Facts) {
    a == b.(history := a.history) && multiset(a.history) == multiset(b.history)
  }

  lemma {:induction false} QualifyingSame(f: Facts, g: Facts, s: seq<Grant>, t: seq<Grant>)
    requires SameFacts(f, g) && multiset(s) == multiset(t)
    ensures Qualified(Qualifying(f), s) == Qualified(Qualifying(g), t)
  {
    SameMembers(s, t);
    forall x ensures Qualifies(f, x) == Qualifies(g, x) {
    }
  }

  /** The facts observed do not depend on the order of grants, storages or history. */
  lemma {:induction false} ObservationUnordered(claim: Claim, key: Key, compatibility: string, a: Evidence, b: Evidence)
    requires Reordered(a, b)
    ensures ObservedFacts(claim, key, compatibility, a).None? <==> ObservedFacts(claim, key, compatibility, b).None?
    ensures ObservedFacts(claim, key, compatibility, a).Some? ==>
      SameFacts(ObservedFacts(claim, key, compatibility, a).value, ObservedFacts(claim, key, compatibility, b).value)
  {
    if EvidenceUsable(claim, key, a) {
      UsablePermuted(claim, key, a, b);
      UsableHasFacts(claim, key, compatibility, a);
      UsableHasFacts(claim, key, compatibility, b);
      IndexedPermuted(STORAGE_ID, a.storages, b.storages);
      IndexedPermuted(ATTEMPT_ID, a.grants, b.grants);
      WherePermuted(Scope(claim, key), a.history, b.history);
      IndexedPermuted(ROW_ID, Where(Scope(claim, key), a.history), Where(Scope(claim, key), b.history));
      QualifyingSame(WithoutWitnesses(claim, key, compatibility, a).value, WithoutWitnesses(claim, key, compatibility, b).value,
        a.grants, b.grants);
    } else if EvidenceUsable(claim, key, b) {
      UsablePermuted(claim, key, b, a);
    }
  }
}
