/** Choosing the execution a conversation continues from (src/internal/controller/continuity_selection.go). */
module ContinuityOrder {
  import opened Common
  import opened Indexing
  import opened ContinuityRecords
  import opened ContinuityEvidence

  type Witnessed = map<string, Grant>

  /** None is an unknown order. Chat rows of one worker session are ordered by turn, all others by time. */
  function Compare(w: Witnessed, a: Row, b: Row, chat: bool): Option<int> {
    if a.id == b.id then Some(0)
    else if chat && a.id in w && b.id in w && w[a.id].workerSessionId != ""
         && w[a.id].workerSessionId == w[b.id].workerSessionId && w[a.id].turnSequence != w[b.id].turnSequence
    then Some(if w[a.id].turnSequence > w[b.id].turnSequence then 1 else -1)
    else
      var x, y := ObservationTime(a), ObservationTime(b);
      if x.None? || y.None? || x == y then None else Some(if x.value > y.value then 1 else -1)
  }

  predicate Beats(w: Witnessed, a: Row, b: Row, chat: bool) {
    var order := Compare(w, a, b, chat);
    order.Some? && order.value > 0
  }

  type Ordering = (Row, Row) -> bool

  function Order(w: Witnessed, chat: bool): Ordering {
    (a, b) => Beats(w, a, b, chat)
  }

  predicate BeatsRest(beats: Ordering, r: Row, rows: set<Row>) {
    forall o :: o in rows && o.id != r.id ==> beats(r, o)
  }

  predicate IsChampion(beats: Ordering, r: Row, rows: set<Row>) {
    r in rows && BeatsRest(beats, r, rows)
  }

  /** The row that beats every other, if there is one. */
  ghost function Champion(beats: Ordering, rows: set<Row>): Option<Row> {
    if r :| IsChampion(beats, r, rows) then Some(r) else None
  }

  ghost predicate Asymmetric(beats: Ordering) {
    forall a, b :: beats(a, b) ==> !beats(b, a) && a.id != b.id
  }

  lemma {:induction false} OrderAsymmetric(w: Witnessed, chat: bool)
    ensures Asymmetric(Order(w, chat))
  {
    forall a, b | Beats(w, a, b, chat) ensures !Beats(w, b, a, chat) && a.id != b.id {
    }
  }

  function Members<T>(s: seq<T>): set<T> {
    set x | x in s
  }

  predicate DistinctIds(rows: set<Row>) {
    forall a, b :: a in rows && b in rows && a.id == b.id ==> a == b
  }

  lemma {:induction false} IndexedDistinct(s: seq<Row>)
    requires Indexed(ROW_ID, s).Some?
    ensures DistinctIds(Members(s))
  {
    IndexedLists(ROW_ID, s);
    var m := Indexed(ROW_ID, s).value;
    forall a, b | a in s && b in s && a.id == b.id ensures a == b {
      assert m[ROW_ID(a)] == a && m[ROW_ID(b)] == b;
    }
  }

  lemma {:induction false} ChampionIs(beats: Ordering, r: Row, rows: set<Row>)
    requires Asymmetric(beats) && DistinctIds(rows) && IsChampion(beats, r, rows)
    ensures Champion(beats, rows) == Some(r)
  {
    var c := Champion(beats, rows).value;
    assert beats(r, c) ==> !beats(c, r);
  }

  /** A champion among the rows already seen is the one selected. */
  ghost predicate Tracks(beats: Ordering, rows: set<Row>, seen: seq<Row>, selected: Row) {
    selected in rows && forall r :: r in seen && IsChampion(beats, r, rows) ==> r == selected
  }

  lemma {:induction false} TrackStep(beats: Ordering, rows: set<Row>, seen: seq<Row>, selected: Row, x: Row)
    requires Asymmetric(beats) && DistinctIds(rows) && Tracks(beats, rows, seen, selected) && x in rows
    ensures Tracks(beats, rows, seen + [x], if beats(x, selected) then x else selected)
  {
    assert beats(x, selected) ==> !beats(selected, x);
  }

  const NO_ROW := "selected_producer_unavailable"
  const AMBIGUOUS := "timestamp_ambiguous"

  /** One pass selects and one pass checks. Comparing may be cyclic, and still the check succeeds
      exactly when a row beats every other, which is then the unique result. */
  method Latest(w: Witnessed, rows: seq<Row>, chat: bool) returns (r: Option<Row>, reason: string)
    requires Indexed(ROW_ID, rows).Some?
    ensures r == Champion(Order(w, chat), Members(rows))
    ensures reason == if r.Some? then "" else if rows == [] then NO_ROW else AMBIGUOUS
  {
    OrderAsymmetric(w, chat);
    IndexedDistinct(rows);
    r, reason := LatestBy(Order(w, chat), rows);
  }

  method LatestBy(beats: Ordering, rows: seq<Row>) returns (r: Option<Row>, reason: string)
    requires Asymmetric(beats) && DistinctIds(Members(rows))
    ensures r == Champion(beats, Members(rows))
    ensures reason == if r.Some? then "" else if rows == [] then NO_ROW else AMBIGUOUS
  {
    if rows == [] {
      return None, NO_ROW;
    }
    ghost var all := Members(rows);
    var selected := rows[0];
    for i := 1 to |rows|
      invariant Tracks(beats, all, rows[..i], selected)
    {
      TrackStep(beats, all, rows[..i], selected, rows[i]);
      assert rows[..i + 1] == rows[..i] + [rows[i]];
      if beats(rows[i], selected) {
        selected := rows[i];
      }
    }
    assert rows[..|rows|] == rows;
    for i := 0 to |rows|
      invariant BeatsRest(beats, selected, Members(rows[..i]))
    {
      if rows[i].id != selected.id && !beats(selected, rows[i]) {
        assert rows[i] in all;
        return None, AMBIGUOUS;
      }
      assert rows[..i + 1] == rows[..i] + [rows[i]];
    }
    assert rows[..|rows|] == rows;
    ChampionIs(beats, selected, all);
    r, reason := Some(selected), "";
  }

  /** What the champion is, in terms of comparing rows: the only one strictly ahead of every other. */
  lemma {:induction false} ChampionMeaning(w: Witnessed, rows: seq<Row>, chat: bool, r: Row)
    requires Indexed(ROW_ID, rows).Some?
    ensures Champion(Order(w, chat), Members(rows)) == Some(r) <==>
      r in rows && forall o :: o in rows && o != r ==> Beats(w, r, o, chat)
  {
    OrderAsymmetric(w, chat);
    IndexedDistinct(rows);
    var beats, all := Order(w, chat), Members(rows);
    if IsChampion(beats, r, all) {
      ChampionIs(beats, r, all);
    }
  }

  function PlainRow(id: string, time: nat): Row {
    Row(id, "", "", "", "", "", "chat", "completed", "", "", At(time), Absent, Absent, Absent, "", "", None)
  }

  function PlainGrant(id: string, turn: nat): Grant {
    Grant(false, true, Key("", "", AgentDM, "", ""), id, id, "", "", "", "session", turn, "", "", "", "", "",
      None, true, true, None, None, None, "", "", None)
  }

  /** Turn order and timestamps can disagree, so comparing chat rows is not transitive: here a is
      ahead of b by its turn, b of c and c of a by their times, and no row is the latest. */
  lemma {:induction false} CompareMayCycle()
    ensures exists w: Witnessed, a: Row, b: Row, c: Row ::
      Beats(w, a, b, true) && Beats(w, b, c, true) && Beats(w, c, a, true)
  {
    var w: Witnessed := map["a" := PlainGrant("a", 2), "b" := PlainGrant("b", 1)];
    var a, b, c := PlainRow("a", 1), PlainRow("b", 3), PlainRow("c", 2);
    assert "a" != "b" && "a" != "c" && "b" != "c";
    assert Compare(w, a, b, true) == Some(1);
    assert Beats(w, a, b, true) && Beats(w, b, c, true) && Beats(w, c, a, true);
  }
}

module ContinuitySelection {
  import opened Common
  import opened Indexing
  import opened ContinuityRecords
  import opened ContinuityEvidence
  import opened ContinuityOrder
  import Canonical = Ordering

  /** The execution whose native session is resumed, if any, and the one whose workspace is taken;
      or the reasons a refusal may give. */
  datatype Choice = Sources(session: Option<Grant>, work: Grant) | Refused(reasons: set<string>)

  datatype Pick = Picked(session: Option<Grant>, work: Grant) | Declined(reason: string)

  predicate Follows(p: Pick, c: Choice) {
    match c
    case Sources(session, work) => p == Picked(session, work)
    case Refused(reasons) => p.Declined? && p.reason in reasons
  }

  predicate IssueCandidate(session: string, r: Row) {
    r.status == "completed" && r.result.Some? && !r.result.value.sessionRolloutMissing && r.result.value.sessionId == session
  }

  function IssueCandidates(session: string): Row -> bool {
    r => IssueCandidate(session, r)
  }

  /** A completed row whose result is unavailable could have published the same session. */
  const HIDDEN := (r: Row) => r.status == "completed" && r.result.None?

  predicate ProducedIssue(claim: Claim, w: Witnessed, r: Row) {
    && r.id in w && r.runtimeId == claim.runtimeId && r.workDir == claim.priorWorkDir && w[r.id].proof.Some?
    && w[r.id].proof.value.sessionId == claim.priorSessionId && w[r.id].proof.value.workDir == claim.priorWorkDir
  }

  function Those(h: set<Row>, p: Row -> bool): set<Row> {
    set r | r in h && p(r)
  }

  predicate Ahead(beats: Ordering, row: Row, h: set<Row>, p: Row -> bool) {
    forall r :: r in h && p(r) ==> beats(row, r)
  }

  ghost function LatestReason(rows: set<Row>): string {
    if rows == {} then NO_ROW else AMBIGUOUS
  }

  ghost function IssueSource(claim: Claim, w: Witnessed, history: set<Row>): Choice {
    var rows := Those(history, IssueCandidates(claim.priorSessionId));
    var selected := Champion(Order(w, false), rows);
    if selected.None? then Refused({LatestReason(rows)})
    else if !Ahead(Order(w, false), selected.value, history, HIDDEN) then Refused({"completed_source_ambiguous"})
    else if !ProducedIssue(claim, w, selected.value) then Refused({"selected_producer_unwitnessed"})
    else Sources(Some(w[selected.value.id]), w[selected.value.id])
  }

  method SelectWhere(p: Row -> bool, h: seq<Row>) returns (rows: seq<Row>)
    requires Indexed(ROW_ID, h).Some?
    ensures rows == Where(p, h) && Indexed(ROW_ID, rows).Some?
    ensures Members(rows) == Those(Members(h), p)
    ensures rows == [] <==> Members(rows) == {}
  {
    rows := [];
    for i := 0 to |h|
      invariant rows == Where(p, h[..i])
    {
      WhereAppend(p, h, i);
      if p(h[i]) {
        rows := rows + [h[i]];
      }
    }
    assert h[..|h|] == h;
    WhereIndexed(ROW_ID, p, h);
    WhereMembers(p, h);
    if rows != [] {
      assert rows[0] in Members(rows);
    }
  }

  method IsAhead(beats: Ordering, row: Row, h: seq<Row>, p: Row -> bool) returns (ok: bool)
    ensures ok <==> Ahead(beats, row, Members(h), p)
  {
    for i := 0 to |h|
      invariant Ahead(beats, row, Members(h[..i]), p)
    {
      if p(h[i]) && !beats(row, h[i]) {
        assert h[i] in Members(h);
        return false;
      }
      assert h[..i + 1] == h[..i] + [h[i]];
    }
    assert h[..|h|] == h;
    ok := true;
  }

  method FindIssueSource(claim: Claim, w: Witnessed, history: seq<Row>) returns (p: Pick)
    requires Indexed(ROW_ID, history).Some?
    ensures Follows(p, IssueSource(claim, w, Members(history)))
  {
    var candidates := SelectWhere(IssueCandidates(claim.priorSessionId), history);
    var selected, reason := Latest(w, candidates, false);
    if reason != "" {
      return Declined(reason);
    }
    var ahead := IsAhead(Order(w, false), selected.value, history, HIDDEN);
    if !ahead {
      return Declined("completed_source_ambiguous");
    }
    var row := selected.value;
    if !ProducedIssue(claim, w, row) {
      return Declined("selected_producer_unwitnessed");
    }
    p := Picked(Some(w[row.id]), w[row.id]);
  }

  const SESSION_ROW := (r: Row) =>
    r.status == "completed" && r.result.Some? && r.result.value.sessionId != "" && !r.result.value.sessionRolloutMissing

  predicate AcceptedFailure(w: Witnessed, r: Row) {
    r.status == "failed" && r.id in w && HasStatus(w[r.id], "failed")
  }

  function WorkspaceRow(w: Witnessed): Row -> bool {
    r => AcceptedFailure(w, r) || (r.status == "completed" && r.result.Some? && r.result.value.workDir != "")
  }

  predicate ProducedWorkspace(claim: Claim, w: Witnessed, r: Row) {
    && r.id in w && r.workDir == claim.priorWorkDir
    && w[r.id].proof.Some? && w[r.id].proof.value.workDir == claim.priorWorkDir
  }

  predicate ProducedSession(claim: Claim, w: Witnessed, r: Row) {
    && r.id in w && r.runtimeId == claim.runtimeId && r.result.Some? && r.result.value.sessionId == claim.priorSessionId
    && w[r.id].proof.Some? && w[r.id].proof.value.sessionId == claim.priorSessionId
  }

  /** A cancelled turn cannot have moved the pointer once a session row created later is known. */
  predicate CancelledPinBlocked(r: Row, sessionRows: set<Row>) {
    r.createdAt.At? && exists n :: n in sessionRows && n.createdAt.At? && n.createdAt.nanos > r.createdAt.nanos
  }

  /** Why one more row of the chat leaves the pointers' writers unresolved, or nothing. */
  function BlockReason(w: Witnessed, work: Row, session: Option<Row>, sessionRows: set<Row>, r: Row): string {
    if r.status == "queued" then ""
    else if r.status == "cancelled" then
      if CancelledPinBlocked(r, sessionRows) then "" else "cancelled_chat_producer_unknown"
    else if r.status == "completed" || r.status == "failed" then
      if (r.status == "completed" && r.result.Some?) || AcceptedFailure(w, r) then ""
      else if Beats(w, work, r, true) && (session.Some? ==> Beats(w, session.value, r, true)) then ""
      else "chat_pointer_writer_unknown"
    else "chat_writer_unresolved"
  }

  function Blocking(w: Witnessed, work: Row, session: Option<Row>, sessionRows: set<Row>): Row -> string {
    r => BlockReason(w, work, session, sessionRows, r)
  }

  function BlockReasons(blocking: Row -> string, h: set<Row>): set<string> {
    set r | r in h && blocking(r) != "" :: blocking(r)
  }

  ghost function ChatSession(claim: Claim, w: Witnessed, history: set<Row>): Result {
    var rows := Those(history, SESSION_ROW);
    var selected := Champion(Order(w, true), rows);
    if claim.priorSessionId == "" then Found(None)
    else if selected.None? then NotFound(LatestReason(rows))
    else if !ProducedSession(claim, w, selected.value) then NotFound("session_producer_unwitnessed")
    else Found(selected)
  }

  /** A row that was looked for, or why it was not found. */
  datatype Result = Found(row: Option<Row>) | NotFound(reason: string)

  ghost function ChatWorkspace(claim: Claim, w: Witnessed, history: set<Row>): Result {
    var rows := Those(history, WorkspaceRow(w));
    var selected := Champion(Order(w, true), rows);
    if selected.None? then NotFound(LatestReason(rows))
    else if !ProducedWorkspace(claim, w, selected.value) then NotFound("workspace_producer_unwitnessed")
    else Found(selected)
  }

  ghost function ChatSources(claim: Claim, w: Witnessed, history: set<Row>): Choice {
    var work, session := ChatWorkspace(claim, w, history), ChatSession(claim, w, history);
    if work.NotFound? then Refused({work.reason})
    else if session.NotFound? then Refused({session.reason})
    else
      var reasons := BlockReasons(Blocking(w, work.row.value, session.row, Those(history, SESSION_ROW)), history);
      if reasons != {} then Refused(reasons)
      else Sources(if session.row.Some? then Some(w[session.row.value.id]) else None, w[work.row.value.id])
  }

  method FirstBlock(blocking: Row -> string, h: seq<Row>) returns (reason: string)
    ensures reason == "" <==> BlockReasons(blocking, Members(h)) == {}
    ensures reason != "" ==> reason in BlockReasons(blocking, Members(h))
  {
    for i := 0 to |h|
      invariant forall r :: r in h[..i] ==> blocking(r) == ""
    {
      if blocking(h[i]) != "" {
        assert h[i] in Members(h);
        assert blocking(h[i]) in BlockReasons(blocking, Members(h));
        return blocking(h[i]);
      }
      assert h[..i + 1] == h[..i] + [h[i]];
    }
    assert h[..|h|] == h;
    reason := "";
  }

  method FindChatRows(claim: Claim, w: Witnessed, history: seq<Row>) returns (work: Result, session: Result, sessionRows: seq<Row>)
    requires Indexed(ROW_ID, history).Some?
    ensures work == ChatWorkspace(claim, w, Members(history))
    ensures work.Found? ==> session == ChatSession(claim, w, Members(history))
    ensures Members(sessionRows) == Those(Members(history), SESSION_ROW)
  {
    sessionRows := SelectWhere(SESSION_ROW, history);
    var workspaceRows := SelectWhere(WorkspaceRow(w), history);
    session := Found(None);
    var selected, reason := Latest(w, workspaceRows, true);
    if reason != "" {
      work := NotFound(reason);
      return;
    }
    if !ProducedWorkspace(claim, w, selected.value) {
      work := NotFound("workspace_producer_unwitnessed");
      return;
    }
    work := Found(selected);
    if claim.priorSessionId != "" {
      selected, reason := Latest(w, sessionRows, true);
      session := if reason != "" then NotFound(reason)
        else if !ProducedSession(claim, w, selected.value) then NotFound("session_producer_unwitnessed")
        else Found(selected);
    }
  }

  method FindChatSources(claim: Claim, w: Witnessed, history: seq<Row>) returns (p: Pick)
    requires Indexed(ROW_ID, history).Some?
    ensures Follows(p, ChatSources(claim, w, Members(history)))
  {
    var work, session, sessionRows := FindChatRows(claim, w, history);
    if work.NotFound? {
      return Declined(work.reason);
    }
    if session.NotFound? {
      return Declined(session.reason);
    }
    var reason := FirstBlock(Blocking(w, work.row.value, session.row, Members(sessionRows)), history);
    if reason != "" {
      return Declined(reason);
    }
    p := Picked(if session.row.Some? then Some(w[session.row.value.id]) else None, w[work.row.value.id]);
  }

  datatype Request = Request(claim: Claim, key: Key, compatibility: string, compatibilityIsDigest: bool, eligible: bool)

  /** The list whose digest identifies the evidence behind a selection. */
  datatype Digested = Digested(
    key: Key, claimId: string, dispatchedAt: Stamp, named: string, selection: Selection,
    workspaceWitness: Option<Witness>, sessionWitness: Option<Witness>,
    latest: Source, latestSession: string, latestTurn: nat, latestState: string, latestStarted: bool,
    latestComplete: bool, latestWitness: Option<Witness>, activeAttempt: string, dirty: bool,
    historyKnown: bool, history: seq<Row>
  )

  datatype Verdict = Chosen(selection: Selection, evidence: Digested) | Denied(refusal: Selection, reasons: set<string>)

  datatype Decision = Selected(selection: Selection, evidence: Digested) | Rejected(refusal: Selection, reason: string)

  predicate Conforms(d: Decision, v: Verdict) {
    match v
    case Chosen(selection, evidence) => d == Selected(selection, evidence)
    case Denied(refusal, reasons) => d.Rejected? && d.refusal == refusal && d.reason in reasons
  }

  const NO_SOURCE := Source("", "")

  function Fresh(q: Request): Selection {
    Selection(q.key, q.eligible && q.key.kind != SingleTask, q.eligible, FreshWorkspace, "", NO_SOURCE, NO_SOURCE, NO_SOURCE, "", "")
  }

  /** What is refused before any evidence is read. */
  function EarlyDenial(q: Request): Option<(Selection, string)> {
    var claim, key, refusal := q.claim, q.key, Fresh(q);
    if !q.eligible || !ValidKey(key) || key.kind == SingleTask || !q.compatibilityIsDigest
       || claim.workspaceId != key.workspaceId || claim.agentId != key.agentId || !claim.startClaimSupported
    then Some((refusal.(reuseEligible := false), "continuity_authority_unknown"))
    else if !ObservesConversation(claim, key) then Some((refusal.(reuseEligible := false), "conversation_scope_mismatch"))
    else if claim.priorWorkDir == "" then Some((refusal, "selected_workspace_unavailable"))
    else if !CleanAbsolute(claim.priorWorkDir) || '\0' in claim.priorWorkDir || '\r' in claim.priorWorkDir
            || '\n' in claim.priorWorkDir || '\\' in claim.priorWorkDir
    then Some((refusal, "selected_workspace_invalid"))
    else None
  }

  function Named(claim: Claim, key: Key): string {
    if key.kind == Issue && claim.rerunOf != "" then claim.rerunOf
    else if claim.priorSessionId == "" then claim.retryOf
    else ""
  }

  function NamedSource(claim: Claim, w: Witnessed, named: string): Choice {
    if named !in w || w[named].proof.None? || w[named].proof.value.workDir != claim.priorWorkDir then Refused({"named_source_unwitnessed"})
    else if claim.priorSessionId == "" then Sources(None, w[named])
    else if w[named].proof.value.sessionId != claim.priorSessionId then Refused({"named_session_mismatch"})
    else Sources(Some(w[named]), w[named])
  }

  ghost function SourceChoice(claim: Claim, key: Key, w: Witnessed, history: set<Row>, historyKnown: bool): Choice {
    if Named(claim, key) != "" then NamedSource(claim, w, Named(claim, key))
    else if !historyKnown then Refused({"history_unavailable"})
    else if key.kind != Issue then ChatSources(claim, w, history)
    else if claim.priorSessionId == "" then Refused({"workspace_source_unselected"})
    else if !claim.issueStateDeltaKnown && !claim.newCommentsDeltaKnown then Refused({"completed_source_unproven"})
    else IssueSource(claim, w, history)
  }

  method FindSources(claim: Claim, key: Key, w: Witnessed, history: seq<Row>, historyKnown: bool) returns (p: Pick)
    requires Indexed(ROW_ID, history).Some?
    ensures Follows(p, SourceChoice(claim, key, w, Members(history), historyKnown))
  {
    var named := Named(claim, key);
    if named != "" {
      var c := NamedSource(claim, w, named);
      p := if c.Sources? then Picked(c.session, c.work)
        else if "named_session_mismatch" in c.reasons then Declined("named_session_mismatch")
        else Declined("named_source_unwitnessed");
    } else if !historyKnown {
      p := Declined("history_unavailable");
    } else if key.kind != Issue {
      p := FindChatSources(claim, w, history);
    } else if claim.priorSessionId == "" {
      p := Declined("workspace_source_unselected");
    } else if !claim.issueStateDeltaKnown && !claim.newCommentsDeltaKnown {
      p := Declined("completed_source_unproven");
    } else {
      p := FindIssueSource(claim, w, history);
    }
  }

  predicate Retired(key: Key, storages: map<string, Storage>, grants: map<string, Grant>, history: set<Row>, session: string) {
    || (exists k :: k in storages && storages[k].conversation == key && session in storages[k].retiredSessions)
    || (exists r :: r in history && r.result.Some? && r.result.value.retiredSessionId == session)
    || (exists k :: k in grants && grants[k].conversation == key && grants[k].pendingResume.Some? &&
          (grants[k].pendingResume.value.retiredSessionId == session || grants[k].pendingResume.value.missingSessionId == session))
  }

  /** The idle session that may hand a dirty storage to its next turn. */
  predicate WarmOwner(key: Key, s: Storage, warm: map<string, Session>) {
    && s.id in warm
    && var o := warm[s.id];
       && o.protocolVersion == PROTOCOL_VERSION && o.id == s.writerSessionId && o.conversation == key
       && o.storageId == s.id && o.state == "idle" && !o.stopping && o.activeAttempt == ""
       && o.lastCompleteAttempt == s.latestWriter.attemptId
  }

  predicate LatestWriterProven(key: Key, compatibility: string, grants: map<string, Grant>, s: Storage) {
    && s.latestWriter.attemptId in grants
    && GrantSource(grants[s.latestWriter.attemptId]) == s.latestWriter
    && ValidLocalWriter(key, compatibility, grants[s.latestWriter.attemptId], s)
  }

  /** Why the chosen sources may not be mounted, or nothing. */
  function StorageDenial(claim: Claim, key: Key, compatibility: string, storages: map<string, Storage>, grants: map<string, Grant>,
                         history: set<Row>, warm: map<string, Session>, session: Option<Grant>, work: Grant): (reason: string)
    ensures reason == "" ==> work.storageId in storages && storages[work.storageId].latestWriter.attemptId in grants
  {
    if claim.priorSessionId != "" && Retired(key, storages, grants, history, claim.priorSessionId) then "selected_session_retired"
    else if work.storageId !in storages then "selected_storage_unavailable"
    else
      var s := storages[work.storageId];
      if s.taskRoot + "/workdir" != claim.priorWorkDir || s.quarantined then "selected_storage_unavailable"
      else if s.activeAttempt == "" && s.dirty && !WarmOwner(key, s, warm) then "selected_storage_unavailable"
      else if session.Some? && session.value.storageId != s.id then "independent_sources_use_different_storage"
      else if !LatestWriterProven(key, compatibility, grants, s) then "latest_writer_unproven"
      else ""
  }

  function Choose(claim: Claim, key: Key, s: Storage, session: Option<Grant>, work: Grant): Selection {
    var base := Selection(key, true, true, FreshSession, s.id, NO_SOURCE, GrantSource(work), s.latestWriter, "", s.taskRoot + "/workdir");
    if session.None? then base
    else base.(mode := Resume, sessionSource := GrantSource(session.value), sessionId := claim.priorSessionId)
  }

  /** history is any listing of the rows: it is sorted before it is digested. */
  function Digest(claim: Claim, key: Key, s: Storage, session: Option<Grant>, work: Grant, latest: Grant,
                  historyKnown: bool, history: seq<Row>): Digested {
    Digested(key, claim.id, claim.dispatchedAt, Named(claim, key), Choose(claim, key, s, session, work),
      work.proof, if session.Some? then session.value.proof else None,
      GrantSource(latest), latest.workerSessionId, latest.turnSequence, latest.state, latest.startConfirmed,
      latest.turnComplete, latest.proof, s.activeAttempt, s.dirty, historyKnown, Canonical.Sort(ROW_ID, history))
  }

  ghost function FactsVerdict(q: Request, f: Facts, warm: map<string, Session>, historyKnown: bool): Verdict {
    var c := SourceChoice(q.claim, q.key, f.witnesses, Members(f.history), historyKnown);
    if c.Refused? then Denied(Fresh(q), c.reasons)
    else
      var reason := StorageDenial(q.claim, q.key, q.compatibility, f.storages, f.grants, Members(f.history), warm, c.session, c.work);
      if reason != "" then Denied(Fresh(q), {reason})
      else
        var s := f.storages[c.work.storageId];
        Chosen(Choose(q.claim, q.key, s, c.session, c.work),
          Digest(q.claim, q.key, s, c.session, c.work, f.grants[s.latestWriter.attemptId], historyKnown, f.history))
  }

  /** Everything a selection may answer. */
  ghost function Outcome(q: Request, e: Evidence): Verdict {
    if EarlyDenial(q).Some? then Denied(EarlyDenial(q).value.0, {EarlyDenial(q).value.1})
    else
      var f := ObservedFacts(q.claim, q.key, q.compatibility, e);
      if f.None? then Denied(Fresh(q), {"history_scope_ambiguous"})
      else FactsVerdict(q, f.value, e.warmSessions, e.historyKnown)
  }

  method SelectFromFacts(q: Request, f: Facts, warm: map<string, Session>, historyKnown: bool) returns (d: Decision)
    requires Indexed(ROW_ID, f.history).Some?
    ensures Conforms(d, FactsVerdict(q, f, warm, historyKnown))
  {
    var p := FindSources(q.claim, q.key, f.witnesses, f.history, historyKnown);
    if p.Declined? {
      return Rejected(Fresh(q), p.reason);
    }
    var reason := StorageDenial(q.claim, q.key, q.compatibility, f.storages, f.grants, Members(f.history), warm, p.session, p.work);
    if reason != "" {
      return Rejected(Fresh(q), reason);
    }
    var s := f.storages[p.work.storageId];
    d := Selected(Choose(q.claim, q.key, s, p.session, p.work),
      Digest(q.claim, q.key, s, p.session, p.work, f.grants[s.latestWriter.attemptId], historyKnown, f.history));
  }

  method SelectConversationSource(q: Request, e: Evidence) returns (d: Decision)
    ensures Conforms(d, Outcome(q, e))
  {
    var early := EarlyDenial(q);
    if early.Some? {
      return Rejected(early.value.0, early.value.1);
    }
    var f := ObserveContinuityFacts(q.claim, q.key, q.compatibility, e);
    if f.None? {
      return Rejected(Fresh(q), "history_scope_ambiguous");
    }
    WhereIndexed(ROW_ID, Scope(q.claim, q.key), e.history);
    d := SelectFromFacts(q, f.value, e.warmSessions, e.historyKnown);
  }

  lemma {:induction false} VerdictUnordered(q: Request, a: Facts, b: Facts, warm: map<string, Session>, historyKnown: bool)
    requires SameFacts(a, b) && Indexed(ROW_ID, a.history).Some?
    ensures FactsVerdict(q, a, warm, historyKnown) == FactsVerdict(q, b, warm, historyKnown)
  {
    SameMembers(a.history, b.history);
    assert Members(a.history) == Members(b.history);
    HistoryCanonical(a.history, b.history);
  }

  lemma {:induction false} HistoryCanonical(a: seq<Row>, b: seq<Row>)
    requires Indexed(ROW_ID, a).Some? && multiset(a) == multiset(b)
    ensures Canonical.Sort(ROW_ID, a) == Canonical.Sort(ROW_ID, b)
  {
    IndexedDistinct(a);
    assert Canonical.InjectiveOn(ROW_ID, a) by {
      assert forall x :: x in a ==> x in Members(a);
    }
    Canonical.SortCanonical(ROW_ID, a, b);
  }

  /** Listing grants, storages and history in another order never changes whether a source is
      selected, which producers are selected, or the digested evidence; a denial stays the same
      but for which of its reasons is named. */
  lemma {:induction false} SelectionUnordered(q: Request, a: Evidence, b: Evidence)
    requires Reordered(a, b)
    ensures Outcome(q, a) == Outcome(q, b)
  {
    if EarlyDenial(q).None? {
      ObservationUnordered(q.claim, q.key, q.compatibility, a, b);
      var f, g := ObservedFacts(q.claim, q.key, q.compatibility, a), ObservedFacts(q.claim, q.key, q.compatibility, b);
      if f.Some? {
        WhereIndexed(ROW_ID, Scope(q.claim, q.key), a.history);
        VerdictUnordered(q, f.value, g.value, a.warmSessions, a.historyKnown);
      }
    }
  }

  lemma {:induction false} ChoiceWitnessed(claim: Claim, key: Key, w: Witnessed, history: set<Row>, historyKnown: bool)
    requires SourceChoice(claim, key, w, history, historyKnown).Sources?
    ensures var c := SourceChoice(claim, key, w, history, historyKnown);
      && c.work in w.Values && c.work.proof.Some? && c.work.proof.value.workDir == claim.priorWorkDir
      && (c.session.Some? <==> claim.priorSessionId != "")
      && (c.session.Some? ==> (c.session.value in w.Values && c.session.value.proof.Some?
                               && c.session.value.proof.value.sessionId == claim.priorSessionId))
  {
    if Named(claim, key) == "" && key.kind != Issue {
      assert ChatSources(claim, w, history).Sources?;
    }
  }

  /** The grant a selection names as a source, on the selected storage. */
  predicate Backs(g: Grant, source: Source, storageId: string) {
    GrantSource(g) == source && g.storageId == storageId && g.proof.Some?
  }

  /** The workspace source has a witness for the claimed directory, and a resumed session has one
      for that session on the same storage. */
  ghost predicate RestsOn(s: Selection, w: Witnessed, claim: Claim) {
    && (exists g :: g in w.Values && Backs(g, s.workspaceSource, s.storageId) && g.proof.value.workDir == claim.priorWorkDir)
    && (s.mode == Resume <==> claim.priorSessionId != "")
    && (s.mode == Resume ==>
          exists g :: g in w.Values && Backs(g, s.sessionSource, s.storageId) && g.proof.value.sessionId == claim.priorSessionId)
  }

  predicate KeyedById(storages: map<string, Storage>) {
    forall k :: k in storages ==> storages[k].id == k
  }

  lemma {:induction false} ChosenIsWitnessed(q: Request, f: Facts, warm: map<string, Session>, historyKnown: bool)
    requires FactsVerdict(q, f, warm, historyKnown).Chosen?
    requires KeyedById(f.storages)
    ensures RestsOn(FactsVerdict(q, f, warm, historyKnown).selection, f.witnesses, q.claim)
  {
    var c := SourceChoice(q.claim, q.key, f.witnesses, Members(f.history), historyKnown);
    ChoiceWitnessed(q.claim, q.key, f.witnesses, Members(f.history), historyKnown);
    var s := FactsVerdict(q, f, warm, historyKnown).selection;
    assert Backs(c.work, s.workspaceSource, s.storageId);
    if c.session.Some? {
      assert Backs(c.session.value, s.sessionSource, s.storageId);
    }
  }

  lemma {:induction false} StoragesKeyed(claim: Claim, key: Key, compatibility: string, e: Evidence)
    requires ObservedFacts(claim, key, compatibility, e).Some?
    ensures KeyedById(ObservedFacts(claim, key, compatibility, e).value.storages)
  {
    var m := ObservedFacts(claim, key, compatibility, e).value.storages;
    IndexedLists(STORAGE_ID, e.storages);
    UsableHasFacts(claim, key, compatibility, e);
    assert Indexed(STORAGE_ID, e.storages) == Some(m);
    forall k | k in m ensures m[k].id == k {
      assert STORAGE_ID(m[k]) == k;
    }
  }

  /** A hint of the backend is followed only to executions it accepted: WitnessExactly says what
      having a witness takes. */
  lemma {:induction false} ChosenWasAccepted(q: Request, e: Evidence)
    requires Outcome(q, e).Chosen?
    ensures ObservedFacts(q.claim, q.key, q.compatibility, e).Some?
    ensures RestsOn(Outcome(q, e).selection, ObservedFacts(q.claim, q.key, q.compatibility, e).value.witnesses, q.claim)
  {
    StoragesKeyed(q.claim, q.key, q.compatibility, e);
    ChosenIsWitnessed(q, ObservedFacts(q.claim, q.key, q.compatibility, e).value, e.warmSessions, e.historyKnown);
  }
}
