/** The values that the recovery workflow stores and passes around.

    A stored payload is typed: the event type is the constructor of `Body`. Texts that no
    decision depends on (messages, rationales, observed strings) are kept as one opaque
    `detail` where they travel with a value, and left out elsewhere. Floats are reals.
 */
module Model {
  datatype Option<+T> = None | Some(value: T)

  /** A digest that does not collide. */
  ghost predicate Injective<T(!new)>(digest: T -> string) {
    forall a, b :: digest(a) == digest(b) ==> a == b
  }

  /** What an external adapter answers: a value, or an exception. */
  datatype Answer<+T> = Raise | Reply(value: T)

  datatype CaseState =
    | DETECTED
    | CONTEXT_GATHERED
    | CANDIDATES_READY
    | VALIDATING
    | PATCH_READY
    | PR_OPEN
    | DEPLOYED
    | POST_DEPLOY_VERIFIED
    | RESOLVED
    | CONTAINED
    | FAILED

  datatype Status = SUCCEEDED | RECORDED_REPLAY | NOT_CONFIGURED | NOT_RUN | ERRORED

  datatype Integration = Integration(status: Status, resourceId: Option<string>, detail: string)

  datatype SchemaField = SchemaField(name: string, dataType: string, nullable: bool)

  datatype SchemaChange = SchemaChange(
    eventId: Option<string>,
    entityUrn: string,
    beforeFields: seq<SchemaField>,
    afterFields: seq<SchemaField>,
    observedAt: int,
    source: string)

  datatype ContextSource = DATAHUB_MCP | REPLAY_FIXTURE | UNAVAILABLE

  datatype Context = Context(
    glossary: Option<string>,
    lineageCurrent: bool,
    source: ContextSource,
    integration: Integration,
    detail: string)

  datatype Proposal = Proposal(id: string, sourceField: string, targetAlias: string, detail: string)

  datatype Verdict = MATCH | CONFLICT | MISSING

  datatype CandidateOutcome = REJECTED | ELIGIBLE | SELECTED

  datatype Metrics = Metrics(
    totalVariance: real,
    rowVariance: real,
    keyOverlap: real,
    nullRateDelta: real)

  datatype Build = Build(passed: bool, detail: string)

  datatype Check = Check(name: string, passed: bool)

  datatype Execution = Execution(verdict: Verdict, metrics: Metrics, build: Build)

  datatype Assessment = Assessment(
    id: string,
    sourceField: string,
    execution: Execution,
    checks: seq<Check>,
    outcome: CandidateOutcome,
    detail: string)

  datatype Patch = Patch(content: string, sha256: string)

  datatype PullRequest = PullRequest(integration: Integration, branch: string, url: Option<string>)

  datatype EvidenceMode = LIVE_RECOMPUTED | RECORDED_REPLAY_INPUT

  /** Why a case was contained. A check that failed during this run and one read back from
      an earlier run produce different texts in the source, hence two constructors. */
  datatype Reason =
    | ContextIncomplete
    | PersistedContextIncomplete
    | NoCompatibleCandidate
    | FailedNow(sourceField: string, check: string)
    | FailedEarlier(sourceField: string, check: string)
    | FailedAfterDeploy(check: string)
    | NothingSatisfiesPolicy

  /** An event's type and payload. */
  datatype Body =
    | SystemReset(reason: string)
    | SchemaChangeDetected(change: SchemaChange, incidentUrn: string)
    | IncidentRaised(incident: Integration)
    | ContextGathered(context: Context)
    | CandidatesReady(proposals: seq<Proposal>, generation: Integration)
    | ValidationStarted(count: nat)
    | CandidateAssessed(assessment: Assessment)
    | PatchReady(selected: Assessment, patch: Patch)
    | EvidenceWritten(evidence: Integration)
    | PrAttempted(attempt: PullRequest)
    | PrOpened(draft: PullRequest)
    | DeploymentRecorded(commit: string, mode: EvidenceMode)
    | PostDeployVerified(verifiedCommit: string, verifiedMode: EvidenceMode, verified: Execution, checks: seq<Check>)
    | IncidentResolved(resolution: Integration)
    | CaseContained(reasons: seq<Reason>, writeback: Integration)
    | CaseFailed(cause: Option<Integration>)

  /** What one case's stream records at a position: a body and the state it moves to. */
  datatype Event = Event(body: Body, state: Option<CaseState>)
}
