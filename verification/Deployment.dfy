/** Post-deploy verification as a function of the case it verifies. */
module Deployment {
  import opened Model
  import opened Projection
  import opened Recovery
  import Policy

  /** What the caller reports about the deployed revision. */
  datatype Request = Request(commit: string, execution: Execution, lineageCurrent: bool)

  /** What recomputation at the verified commit finds. */
  datatype LiveEvidence = LiveEvidence(execution: Execution, lineageCurrent: bool, commit: string)

  datatype Adapters = Adapters(
    executorIsLive: bool,
    liveEvidence: (View, Request) -> Answer<LiveEvidence>,
    writeReport: (string, string, Report) -> Answer<Integration>,
    resolveIncident: string -> Answer<Integration>)

  /** The events one verification records, and whether it ended by raising. */
  datatype Verification = Verification(events: seq<Event>, raised: bool)

  predicate IncidentIsLive(view: View) {
    view.incident.Some? && view.incident.value.status == SUCCEEDED
  }

  function Evidence(settings: Settings, w: Adapters, view: View, request: Request): Answer<(LiveEvidence,
        EvidenceMode)> {
    if settings.postgresMode then
      if !w.executorIsLive then Raise
      else
        match w.liveEvidence(view, request)
        case Raise => Raise
        case Reply(evidence) => Reply((evidence, LIVE_RECOMPUTED))
    else if IncidentIsLive(view) then Raise
    else Reply((LiveEvidence(request.execution, request.lineageCurrent, request.commit), RECORDED_REPLAY_INPUT))
  }

  function PolicyReasons(names: seq<string>): seq<Reason> {
    seq(|names|, i requires 0 <= i < |names| => FailedAfterDeploy(names[i]))
  }

  function Verify(settings: Settings, caseId: string, w: Adapters, view: View, request: Request): Verification {
    if view.state != PR_OPEN || view.selected.None? then Verification([], true)
    else
      match Evidence(settings, w, view, request)
      case Raise => Verification([], true)
      case Reply((evidence, mode)) =>
        Judge(settings, caseId, w, view, evidence, mode)
  }

  /** Record the deployment, then hold its evidence to the policy. */
  function Judge(settings: Settings, caseId: string, w: Adapters, view: View, evidence: LiveEvidence,
        mode: EvidenceMode): Verification {
    var recorded := Event(DeploymentRecorded(evidence.commit, mode), Some(DEPLOYED));
    var decision := Policy.Evaluate(settings.policy, evidence.execution, evidence.lineageCurrent);
    if !decision.accepted then
      var reasons := Concise(PolicyReasons(decision.reasons));
      match w.writeReport(view.change.entityUrn, caseId, Refused(reasons))
      case Raise => Verification([recorded], true)
      case Reply(writeback) =>
        Verification([recorded, Event(CaseContained(reasons, writeback), Some(CONTAINED))], false)
    else
      var verified :=
        Event(PostDeployVerified(evidence.commit, mode, evidence.execution, decision.checks),
            Some(POST_DEPLOY_VERIFIED));
      Close(caseId, w, view, evidence.commit, decision.checks, [recorded, verified])
  }

  /** Write the final evidence, then resolve the incident; a live incident needs both to succeed. */
  function Close(caseId: string, w: Adapters, view: View, commit: string, checks: seq<Check>,
        events: seq<Event>): Verification {
    match w.writeReport(view.change.entityUrn, caseId, Recovered(commit, checks))
    case Raise => Verification(events, true)
    case Reply(written) =>
      if IncidentIsLive(view) && written.status != SUCCEEDED then Verification(events + [NotReady(written)], false)
      else
        match w.resolveIncident(view.incidentUrn)
        case Raise => Verification(events, true)
        case Reply(resolution) =>
          if IncidentIsLive(view) && resolution.status != SUCCEEDED
          then Verification(events + [NotReady(resolution)], false)
          else Verification(events + [Event(IncidentResolved(resolution), Some(RESOLVED))], false)
  }

  // ---- What a verification comes to, by what it was answered ----

  ghost predicate Live(view: View) {
    view.incident.Some? && view.incident.value.status == SUCCEEDED
  }

  /** The evidence there is: recomputed in postgres mode, which takes a live executor; otherwise
      the caller's, unless the incident is live. */
  ghost predicate EvidenceIs(settings: Settings, w: Adapters, view: View, request: Request, evidence: LiveEvidence,
        mode: EvidenceMode) {
    if settings.postgresMode
    then mode == LIVE_RECOMPUTED && w.executorIsLive && w.liveEvidence(view, request) == Reply(evidence)
    else mode == RECORDED_REPLAY_INPUT && !Live(view)
         && evidence == LiveEvidence(request.execution, request.lineageCurrent, request.commit)
  }

  ghost predicate Passes(checks: seq<Check>) {
    forall i :: 0 <= i < |checks| ==> checks[i].passed
  }

  /** The reasons are the checks that failed, all of them, in order. */
  ghost predicate RefusalOf(checks: seq<Check>, reasons: seq<Reason>) {
    exists at :: Policy.FailingAt(checks, at) && |reasons| == |at|
                 && forall k :: 0 <= k < |at| ==> reasons[k] == FailedAfterDeploy(checks[at[k]].name)
  }

  /** The answers to a verification whose evidence passed: to the final report, then, unless a live
      incident kept it from being asked, to the resolution of the case's incident. */
  ghost predicate Asked(caseId: string, w: Adapters, view: View, evidence: LiveEvidence, checks: seq<Check>,
        written: Answer<Integration>, resolution: Option<Answer<Integration>>) {
    && written == w.writeReport(view.change.entityUrn, caseId, Recovered(evidence.commit, checks))
    && (resolution.Some? <==> written.Reply? && (Live(view) ==> written.value.status == SUCCEEDED))
    && (resolution.Some? ==> resolution.value == w.resolveIncident(view.incidentUrn))
  }

  /** Evidence that passed: it raises iff an adapter raised that was asked; otherwise the case is
      RESOLVED iff its incident is not live or both the report and the resolution succeeded, and
      else FAILED for the one that did not. */
  ghost predicate ClosesWith(view: View, written: Answer<Integration>, resolution: Option<Answer<Integration>>,
        endings: seq<Event>, raised: bool) {
    && (raised <==> written.Raise? || (resolution.Some? && resolution.value.Raise?))
    && (raised <==> endings == [])
    && (!raised ==>
        && |endings| == 1
        && endings[0].state in {Some(RESOLVED), Some(CaseState.FAILED)}
        && (endings[0].state == Some(RESOLVED) <==>
              || !Live(view)
              || (&& written.value.status == SUCCEEDED
                  && resolution.Some? && resolution.value.value.status == SUCCEEDED))
        && (endings[0].state == Some(RESOLVED) ==>
            resolution.Some? && endings[0].body == IncidentResolved(resolution.value.value))
        && (endings[0].state == Some(CaseState.FAILED) ==>
            exists cause ::
              && endings[0].body == CaseFailed(Some(cause)) && cause.status != SUCCEEDED
              && (cause == written.value
                  || (written.value.status == SUCCEEDED && resolution == Some(Reply(cause))))))
  }

  /** The policy refuses the evidence: the case is contained once the report on it is written. */
  ghost predicate RefusedAs(caseId: string, w: Adapters, view: View, checks: seq<Check>, rest: seq<Event>,
        raised: bool) {
    exists reasons ::
      && RefusalOf(checks, reasons)
      && var written := w.writeReport(view.change.entityUrn, caseId, Refused(reasons));
         && (raised <==> written.Raise?)
         && rest == if raised then [] else [Event(CaseContained(reasons, written.value), Some(CONTAINED))]
  }

  /** The policy accepts it: the case is verified, then closed. */
  ghost predicate AcceptedAs(caseId: string, w: Adapters, view: View, evidence: LiveEvidence, mode: EvidenceMode,
        checks: seq<Check>, rest: seq<Event>, raised: bool) {
    && |rest| >= 1
    && rest[0] ==
       Event(PostDeployVerified(evidence.commit, mode, evidence.execution, checks), Some(POST_DEPLOY_VERIFIED))
    && exists written, resolution ::
         && Asked(caseId, w, view, evidence, checks, written, resolution)
         && ClosesWith(view, written, resolution, rest[1..], raised)
  }

  /** Evidence was gathered: the deployment is recorded and the evidence judged. */
  ghost predicate JudgedOn(settings: Settings, caseId: string, w: Adapters, view: View, evidence: LiveEvidence,
        mode: EvidenceMode, events: seq<Event>, raised: bool) {
    var checks := Policy.Checks(settings.policy, evidence.execution, evidence.lineageCurrent);
    && |events| >= 1
    && events[0] == Event(DeploymentRecorded(evidence.commit, mode), Some(DEPLOYED))
    && if Passes(checks) then AcceptedAs(caseId, w, view, evidence, mode, checks, events[1..], raised)
       else RefusedAs(caseId, w, view, checks, events[1..], raised)
  }

  /** What a verification records and whether it raises. */
  ghost predicate VerifiedAs(settings: Settings, caseId: string, w: Adapters, view: View, request: Request,
        events: seq<Event>, raised: bool) {
    if view.state == PR_OPEN && view.selected.Some?
       && exists evidence, mode :: EvidenceIs(settings, w, view, request, evidence, mode)
    then exists evidence, mode ::
           && EvidenceIs(settings, w, view, request, evidence, mode)
           && JudgedOn(settings, caseId, w, view, evidence, mode, events, raised)
    else events == [] && raised
  }

  lemma {:induction false} PassesMeans(checks: seq<Check>)
    ensures Passes(checks) <==> forall check :: check in checks ==> check.passed
  {
    if forall check :: check in checks ==> check.passed {
      forall i | 0 <= i < |checks| ensures checks[i].passed {
        assert checks[i] in checks;
      }
    }
  }

  lemma {:induction false} RefusalMeans(checks: seq<Check>, names: seq<string>, at: seq<nat>)
    requires |checks| <= 20 && !Passes(checks) && Policy.NamesAt(checks, names, at)
    ensures RefusalOf(checks, Concise(PolicyReasons(names)))
  {
    FewFail(checks, at);
    var reasons := PolicyReasons(names);
    assert reasons != [] && |reasons| <= 20;
    assert forall k :: 0 <= k < |at| ==> reasons[k] == FailedAfterDeploy(checks[at[k]].name);
  }

  lemma {:induction false} FewFail(checks: seq<Check>, at: seq<nat>)
    requires Policy.FailingAt(checks, at)
    ensures |at| <= |checks|
    ensures !Passes(checks) ==> at != []
  {
    if at != [] {
      var k := 0;
      while k < |at| - 1
        invariant k < |at| && k <= at[k]
      {
        k := k + 1;
      }
    }
  }

  lemma {:induction false} ClosesAsAnswered(caseId: string, w: Adapters, view: View, evidence: LiveEvidence,
        checks: seq<Check>, events: seq<Event>)
    returns (written: Answer<Integration>, resolution: Option<Answer<Integration>>)
    ensures Asked(caseId, w, view, evidence, checks, written, resolution)
    ensures var verification := Close(caseId, w, view, evidence.commit, checks, events);
            && events <= verification.events
            && ClosesWith(view, written, resolution, verification.events[|events|..], verification.raised)
  {
    written := w.writeReport(view.change.entityUrn, caseId, Recovered(evidence.commit, checks));
    resolution := if written.Reply? && (Live(view) ==> written.value.status == SUCCEEDED)
                  then Some(w.resolveIncident(view.incidentUrn)) else None;
  }

  lemma {:induction false} AcceptMeans(caseId: string, w: Adapters, view: View, evidence: LiveEvidence,
        mode: EvidenceMode, checks: seq<Check>, recorded: Event)
    ensures var verified :=
              Event(PostDeployVerified(evidence.commit, mode, evidence.execution, checks), Some(POST_DEPLOY_VERIFIED));
            var verification := Close(caseId, w, view, evidence.commit, checks, [recorded, verified]);
            && |verification.events| >= 1 && verification.events[0] == recorded
            && AcceptedAs(caseId, w, view, evidence, mode, checks, verification.events[1..], verification.raised)
  {
    var verified :=
      Event(PostDeployVerified(evidence.commit, mode, evidence.execution, checks), Some(POST_DEPLOY_VERIFIED));
    var written, resolution := ClosesAsAnswered(caseId, w, view, evidence, checks, [recorded, verified]);
    hide Close, ClosesWith, Asked;
    var verification := Close(caseId, w, view, evidence.commit, checks, [recorded, verified]);
    assert verification.events[2..] == verification.events[1..][1..];
  }

  lemma {:induction false} RefuseMeans(caseId: string, w: Adapters, view: View, checks: seq<Check>,
        reasons: seq<Reason>, rest: seq<Event>, raised: bool)
    requires RefusalOf(checks, reasons)
    requires var written := w.writeReport(view.change.entityUrn, caseId, Refused(reasons));
             && (raised <==> written.Raise?)
             && rest == if raised then [] else [Event(CaseContained(reasons, written.value), Some(CONTAINED))]
    ensures RefusedAs(caseId, w, view, checks, rest, raised)
  {
  }

  lemma {:induction false} JudgeMeans(settings: Settings, caseId: string, w: Adapters, view: View,
        evidence: LiveEvidence, mode: EvidenceMode)
    ensures var verification := Judge(settings, caseId, w, view, evidence, mode);
            JudgedOn(settings, caseId, w, view, evidence, mode, verification.events, verification.raised)
  {
    var checks := Policy.Checks(settings.policy, evidence.execution, evidence.lineageCurrent);
    var at := Policy.FailedNamesMeans(checks);
    PassesMeans(checks);
    hide Close, AcceptedAs, RefusedAs, RefusalOf, Passes, Policy.Checks, Policy.FailedNames, Policy.NamesAt,
      PolicyReasons, Concise;
    var verification := Judge(settings, caseId, w, view, evidence, mode);
    var recorded := Event(DeploymentRecorded(evidence.commit, mode), Some(DEPLOYED));
    if Passes(checks) {
      AcceptMeans(caseId, w, view, evidence, mode, checks, recorded);
    } else {
      SevenChecks(settings.policy, evidence.execution, evidence.lineageCurrent);
      RefusalMeans(checks, Policy.FailedNames(checks), at);
      RefuseMeans(caseId, w, view, checks, Concise(PolicyReasons(Policy.FailedNames(checks))),
        verification.events[1..], verification.raised);
    }
  }

  lemma {:induction false} SevenChecks(config: Policy.Config, execution: Execution, lineageCurrent: bool)
    ensures |Policy.Checks(config, execution, lineageCurrent)| == 7
  {
  }

  lemma {:induction false} EvidenceMeans(settings: Settings, w: Adapters, view: View, request: Request)
    ensures var gathered := Evidence(settings, w, view, request);
            forall evidence, mode :: EvidenceIs(settings, w, view, request, evidence, mode) <==>
                                     gathered == Reply((evidence, mode))
  {
  }

  /** The verification comes to what its answers say. */
  lemma {:induction false} VerifyMeans(settings: Settings, caseId: string, w: Adapters, view: View, request: Request)
    ensures var verification := Verify(settings, caseId, w, view, request);
            VerifiedAs(settings, caseId, w, view, request, verification.events, verification.raised)
  {
    EvidenceMeans(settings, w, view, request);
    hide Evidence, EvidenceIs, Judge, JudgedOn;
    var gathered := Evidence(settings, w, view, request);
    if view.state == PR_OPEN && view.selected.Some? && gathered.Reply? {
      var (evidence, mode) := gathered.value;
      JudgeMeans(settings, caseId, w, view, evidence, mode);
      assert EvidenceIs(settings, w, view, request, evidence, mode);
    }
  }
}
