/** The records continuity selection reads, and its decisions about one record
    (src/internal/controller/continuity_selection.go, src/internal/daemonapi/observation.go). */
module ContinuityRecords {
  import opened Common

  const PROTOCOL_VERSION := 2
  const SECOND := 1_000_000_000

  datatype Kind = Issue | AgentDM | SingleTask

  datatype Key = Key(ownerId: string, workspaceId: string, kind: Kind, subjectId: string, agentId: string)

  /** A timestamp field: empty, not RFC 3339, or an instant in nanoseconds. */
  datatype Stamp = Absent | Malformed | At(nanos: nat)

  datatype Claim = Claim(
    id: string, workspaceId: string, agentId: string, runtimeId: string, issueId: string, kind: string,
    chatSessionId: string, chatChannelType: string, chatType: string,
    autopilotRunId: string, autopilotId: string, quickCreatePrompt: string,
    priorSessionId: string, priorWorkDir: string, dispatchedAt: Stamp,
    startClaimSupported: bool, issueStateDeltaKnown: bool, newCommentsDeltaKnown: bool,
    rerunOf: string, retryOf: string
  )

  datatype Completion = Completion(
    prUrl: string, output: string, sessionId: string, workDir: string, durableWorkDir: string,
    branchName: string, sessionRolloutMissing: bool, retiredSessionId: string
  )

  /** A task row as the backend shows it. */
  datatype Row = Row(
    id: string, workspaceId: string, agentId: string, runtimeId: string, issueId: string,
    chatSessionId: string, kind: string, status: string, error: string, failureReason: string,
    createdAt: Stamp, dispatchedAt: Stamp, startedAt: Stamp, completedAt: Stamp,
    workDir: string, durableWorkDir: string, result: Option<Completion>
  )

  datatype Source = Source(taskId: string, attemptId: string)

  datatype Mode = FreshWorkspace | FreshSession | Resume

  datatype Selection = Selection(
    conversation: Key, reuseEligible: bool, workspaceReuseEligible: bool, mode: Mode, storageId: string,
    sessionSource: Source, workspaceSource: Source, latestWriter: Source, sessionId: string, workDir: string
  )

  datatype Witness = Witness(
    taskId: string, attemptId: string, workerSessionId: string, storageId: string, turnSequence: nat,
    requestDigest: string, resultDigest: string, status: string, sessionId: string, workDir: string,
    acknowledgedAt: nat
  )

  datatype Pointers = Pointers(
    missingSessionId: string, sessionId: string, workDir: string, retiredSessionId: string,
    sessionRolloutMissing: bool, resumeRejectedTransient: bool
  )

  /** envelope is the parsed original claim, None when it does not parse. */
  datatype Grant = Grant(
    legacy: bool, sessionProtocol: bool, conversation: Key, taskId: string, attemptId: string,
    runtimeId: string, workspaceId: string, agentId: string, workerSessionId: string, turnSequence: nat,
    storageId: string, taskRoot: string, anchorTaskId: string, compatibility: string,
    workspaceCompatibility: string, selection: Option<Selection>, startConfirmed: bool, turnComplete: bool,
    proof: Option<Witness>, pendingResume: Option<Pointers>, preparedProvider: Option<string>,
    resumeSession: string, state: string, envelope: Option<Claim>
  )

  /** The failure body with its normalized error and the reason the error classifies to. */
  datatype Failure = Failure(error: string, workDir: string, reason: string)

  /** bodyDigest is the digest of kind and body; completion and failure are the two parses of the body. */
  datatype Terminal = Terminal(
    taskId: string, attemptId: string, source: string, state: string, kind: string,
    requestDigest: string, resultDigest: string, bodyDigest: string, recovered: bool, receipt: bool,
    completion: Option<Completion>, failure: Option<Failure>
  )

  /** canonicalRoot says that the task root is the native one for the conversation's workspace and the anchor. */
  datatype Storage = Storage(
    id: string, conversation: Key, anchorTaskId: string, workspaceCompatibility: string, taskRoot: string,
    canonicalRoot: bool, quarantined: bool, activeAttempt: string, dirty: bool, writerSessionId: string,
    latestWriter: Source, retiredSessions: seq<string>
  )

  datatype Session = Session(
    protocolVersion: nat, id: string, conversation: Key, storageId: string, state: string, stopping: bool,
    activeAttempt: string, lastCompleteAttempt: string
  )

  /** The text between slashes. */
  function Components(p: string): seq<string> {
    if p == "" then [""]
    else if p[0] == '/' then [""] + Components(p[1..])
    else var rest := Components(p[1..]); if rest == [] then [[p[0]]] else [[p[0]] + rest[0]] + rest[1..]
  }

  predicate CleanAbsolute(p: string) {
    && p != "" && p[0] == '/'
    && (p == "/" || forall c :: c in Components(p[1..]) ==> c != "" && c != "." && c != "..")
  }

  predicate ObservedWorkDir(p: string) {
    CleanAbsolute(p) && '\0' !in p && '\\' !in p
  }

  predicate ValidKey(k: Key) {
    IsUuid(k.ownerId) && IsUuid(k.workspaceId) && IsUuid(k.subjectId) && IsUuid(k.agentId)
  }

  function GrantSource(g: Grant): Source {
    Source(g.taskId, g.attemptId)
  }

  /** The first of the four timestamps that is set decides. */
  function ObservationTime(r: Row): Option<nat> {
    var s := if r.completedAt != Absent then r.completedAt
             else if r.startedAt != Absent then r.startedAt
             else if r.dispatchedAt != Absent then r.dispatchedAt
             else r.createdAt;
    if s.At? then Some(s.nanos) else None
  }

  predicate ObservesConversation(c: Claim, k: Key) {
    && c.workspaceId == k.workspaceId && c.agentId == k.agentId
    && c.autopilotRunId == "" && c.autopilotId == "" && c.quickCreatePrompt == ""
    && match k.kind
       case Issue => c.issueId == k.subjectId && c.chatSessionId == "" && (c.kind == "direct" || c.kind == "comment")
       case AgentDM => c.chatSessionId == k.subjectId && c.kind == "chat" && c.chatChannelType == "" && c.chatType == ""
       case SingleTask => false
  }

  predicate MatchesResultClaim(r: Row, c: Claim) {
    && r.id == c.id && r.workspaceId == c.workspaceId && r.agentId == c.agentId && r.runtimeId == c.runtimeId
    && (r.issueId == c.issueId || (c.kind == "quick_create" && c.issueId == "" && IsUuid(r.issueId)))
    && r.chatSessionId == c.chatSessionId && r.kind == c.kind
    && IsUuid(r.id) && IsUuid(r.workspaceId) && IsUuid(r.agentId) && IsUuid(r.runtimeId)
    && c.dispatchedAt.At? && r.dispatchedAt.At?
    && c.dispatchedAt.nanos / SECOND == r.dispatchedAt.nanos / SECOND
  }

  predicate MatchesStartedClaim(r: Row, c: Claim) {
    c.startClaimSupported && MatchesResultClaim(r, c) && r.startedAt.At? && r.completedAt.At?
  }

  predicate AcceptsCompletion(r: Row, c: Claim, t: Terminal) {
    && t.completion.Some? && r.result == t.completion && r.status == "completed" && MatchesStartedClaim(r, c)
    && var sent := t.completion.value;
       ObservedWorkDir(sent.workDir) && r.workDir == sent.workDir && r.durableWorkDir == sent.durableWorkDir
  }

  predicate AcceptsTransientFailure(r: Row, c: Claim, t: Terminal) {
    && t.failure.Some? && r.status == "failed" && MatchesStartedClaim(r, c)
    && var sent := t.failure.value;
       && sent.error != "" && ObservedWorkDir(sent.workDir)
       && r.error == sent.error && r.failureReason == sent.reason && r.workDir == sent.workDir && r.durableWorkDir == ""
  }
}
