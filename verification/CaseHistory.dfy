/** Every stream one case can have, over any run of deliveries, crashes and verifications. */
module CaseHistory {
  import opened Model
  import opened StateMachine
  import opened Projection
  import opened Recovery
  import AdvanceSteps
  import Canonical
  import Deployment
  import Policy
  import SqlSafety

  // ---- Histories ----

  /** One call on the case, killed after `cut` appends if it would have made more. The
      adapters answer anything, and may answer differently in every call. */
  datatype Action =
    | Advance(d: Delivery, cut: nat)
    | VerifyDeployment(caseId: string, w: Deployment.Adapters, request: Deployment.Request, cut: nat)

  function Cut(before: seq<Event>, after: seq<Event>, cut: nat): (result: seq<Event>)
    requires before <= after
    ensures before <= result <= after
  {
    if |before| + cut < |after| then after[..|before| + cut] else after
  }

  predicate Detection(event: Event) {
    event.body.SchemaChangeDetected? && event.state == Some(DETECTED)
  }

  /** What a call would leave behind if it were not killed. */
  function Completed(settings: Settings, events: seq<Event>, action: Action): (result: seq<Event>)
    requires Started(events)
    ensures events <= result
  {
    match action
    case Advance(d, _) => Run(settings, d, events, {})
    case VerifyDeployment(caseId, w, request, _) =>
      events + Deployment.Verify(settings, caseId, w, Fold(events), request).events
  }

  function History(settings: Settings, first: Event, actions: seq<Action>): (events: seq<Event>)
    requires Detection(first)
    ensures Started(events) && events[0] == first
  {
    if actions == [] then [first]
    else
      var before := History(settings, first, actions[..|actions| - 1]);
      var action := actions[|actions| - 1];
      Cut(before, Completed(settings, before, action), action.cut)
  }

  // ---- What each step establishes ----

  ghost predicate Passed(checks: seq<Check>) {
    forall check :: check in checks ==> check.passed
  }

  /** The assessment is what policy makes of its execution; eligible means every check passed. */
  ghost predicate Judged(settings: Settings, a: Assessment) {
    && a.checks == Policy.Checks(settings.policy, a.execution, true)
    && (a.outcome != REJECTED <==> Passed(a.checks))
  }

  /** The patched model has the column's default once and the old one nowhere; the digest is its own. */
  ghost predicate Patched(settings: Settings, column: string, patch: Patch) {
    && SqlSafety.Occurrences(patch.content, SqlSafety.Default(column)) == 1
    && SqlSafety.Occurrences(patch.content, SqlSafety.Default("amount")) == 0
    && patch.sha256 == settings.sha256(patch.content)
  }

  /** The assessment is of one of the proposals. */
  ghost predicate Proposed(proposals: seq<Proposal>, a: Assessment) {
    exists p :: p in proposals && p.id == a.id && p.sourceField == a.sourceField
  }

  ghost predicate EachAssessed(view: View) {
    forall p :: p in view.proposals ==> p.id in Ids(view.candidates)
  }

  ghost predicate LiveContext(settings: Settings, context: Context) {
    Complete(context)
    && (!settings.replayMode ==> context.source == DATAHUB_MCP && context.integration.status == SUCCEEDED)
  }

  ghost predicate StepFacts(settings: Settings, view: View, event: Event) {
    && event.state.Some?
    && match event.body
       case IncidentRaised(_) => view.incident.None? && event.state.value == DETECTED
       case ContextGathered(context) =>
         && view.incident.Some? && Ready(settings, view.incident.value) && view.context.None?
         && LiveContext(settings, context) && event.state.value == CONTEXT_GATHERED
       case CandidatesReady(proposals, generation) =>
         && view.context.Some? && (view.generation.None? || view.proposals == [])
         && proposals != [] && Ready(settings, generation) && event.state.value == CANDIDATES_READY
       case ValidationStarted(_) =>
         view.state == CANDIDATES_READY && DistinctIds(view.proposals) && event.state.value == VALIDATING
       case CandidateAssessed(a) =>
         && view.state != CANDIDATES_READY && event.state.value == VALIDATING
         && view.context.Some? && DistinctIds(view.proposals)
         && Assessed(view.candidates, a.id).None?
         && Proposed(view.proposals, a)
         && (view.context.value.lineageCurrent ==> Judged(settings, a)) && a.outcome != SELECTED
       case PatchReady(selected, patch) =>
         && (view.selected.None? || view.patch.None?) && DistinctIds(view.proposals)
         && Eligible(view.proposals, view.candidates) != []
         && selected == Best(Eligible(view.proposals, view.candidates)).(outcome := SELECTED)
         && (exists p :: p in view.proposals && p.id == selected.id && Patched(settings, p.sourceField, patch))
         && EachAssessed(view)
         && event.state.value == PATCH_READY
       case EvidenceWritten(_) =>
         view.selected.Some? && view.writeback.None? && event.state.value == PATCH_READY
       case PrAttempted(pr) =>
         view.writeback.Some? && pr.integration.status != SUCCEEDED && event.state.value == PATCH_READY
       case PrOpened(pr) =>
         && view.writeback.Some? && Ready(settings, view.writeback.value)
         && pr.integration.status == SUCCEEDED && event.state.value == PR_OPEN
       case CaseContained(_, _) => event.state.value == CONTAINED
       case CaseFailed(_) => event.state.value == CaseState.FAILED
       case _ => false
  }

  lemma {:induction false} ContainFacts(settings: Settings, d: Delivery, view: View, reasons: seq<Reason>)
    ensures StepFacts(settings, view, Contain(d, reasons))
  {
  }

  lemma {:induction false} PendingIsMissing(proposals: seq<Proposal>, candidates: seq<Assessment>)
    ensures forall p :: p in Pending(proposals, candidates) ==> p in proposals && Assessed(candidates, p.id).None?
  {
    if proposals != [] {
      PendingIsMissing(proposals[1..], candidates);
    }
  }

  lemma {:induction false} AssessIsJudged(settings: Settings, d: Delivery, proposal: Proposal, context: Context)
    ensures var a := Assess(settings, d, proposal, context);
            && a.id == proposal.id && a.sourceField == proposal.sourceField && a.outcome != SELECTED
            && (context.lineageCurrent ==> Judged(settings, a))
  {
  }

  lemma {:induction false} ValidateFacts(settings: Settings, d: Delivery, view: View, recent: set<string>)
    requires view.context.Some? && DistinctIds(view.proposals)
    requires Validate(settings, d, view, view.context.value, recent).Some?
    ensures StepFacts(settings, view, Validate(settings, d, view, view.context.value, recent).value)
  {
    AdvanceSteps.ValidatesInOrder(settings, d, view, view.context.value, recent);
    hide Validate, StepFacts, Assess, Best, Reasons, DistinctIds, SelectPatch, WriteEvidence, CreatePullRequest,
      Contain, NotReady,
      Pending, Eligible;
    var pending := Pending(view.proposals, view.candidates);
    var eligible := Eligible(view.proposals, view.candidates);
    if view.state == CANDIDATES_READY || pending != [] {
      AssessingFacts(settings, d, view, view.context.value);
    } else if eligible == [] {
      ContainFacts(settings, d, view, Reasons(view.proposals, view.candidates, recent));
    } else if view.selected.None? || view.patch.None? {
      SelectFacts(settings, d, view);
    } else {
      ShipFacts(settings, d, view);
    }
  }

  lemma {:induction false} AssessingFacts(settings: Settings, d: Delivery, view: View, context: Context)
    requires view.context == Some(context) && DistinctIds(view.proposals)
    ensures view.state == CANDIDATES_READY ==>
      StepFacts(settings, view, Event(ValidationStarted(|view.proposals|), Some(VALIDATING)))
    ensures var pending := Pending(view.proposals, view.candidates);
      view.state != CANDIDATES_READY && pending != [] ==>
        StepFacts(settings, view, Event(CandidateAssessed(Assess(settings, d, pending[0], context)), Some(VALIDATING)))
  {
    hide Assess, Judged, DistinctIds;
    var pending := Pending(view.proposals, view.candidates);
    if pending != [] {
      PendingIsMissing(view.proposals, view.candidates);
      AssessIsJudged(settings, d, pending[0], context);
      assert pending[0] in pending;
    }
  }

  lemma {:induction false} SelectFacts(settings: Settings, d: Delivery, view: View)
    requires DistinctIds(view.proposals) && Eligible(view.proposals, view.candidates) != []
    requires Pending(view.proposals, view.candidates) == [] && (view.selected.None? || view.patch.None?)
    ensures StepFacts(settings, view, SelectPatch(settings, d, view, Eligible(view.proposals, view.candidates)))
  {
    hide Best, Eligible, DistinctIds, SqlSafety.RenderDbtPatch, SqlSafety.Occurrences, SqlSafety.Default;
    var selected := Best(Eligible(view.proposals, view.candidates)).(outcome := SELECTED);
    ProposalIsThere(view.proposals, selected.id);
    NonePending(view);
    var proposal := ProposalOf(view.proposals, selected.id);
    if proposal.Some? && d.adapters.readModel.Reply? {
      RenderedIsPatched(settings, proposal.value, d.adapters.readModel.value);
    }
  }

  lemma {:induction false} PendingIsThere(proposals: seq<Proposal>, candidates: seq<Assessment>, p: Proposal)
    requires p in proposals && Assessed(candidates, p.id).None?
    ensures p in Pending(proposals, candidates)
  {
    if p != proposals[0] {
      PendingIsThere(proposals[1..], candidates, p);
    }
  }

  lemma {:induction false} NonePending(view: View)
    ensures Pending(view.proposals, view.candidates) == [] <==> EachAssessed(view)
  {
    PendingIsMissing(view.proposals, view.candidates);
    forall p | p in view.proposals
      ensures p.id in Ids(view.candidates) <==> Assessed(view.candidates, p.id).Some?
      ensures p.id in Ids(view.candidates) || p in Pending(view.proposals, view.candidates)
    {
      AssessedInIds(view.candidates, p.id);
      if Assessed(view.candidates, p.id).None? {
        PendingIsThere(view.proposals, view.candidates, p);
      }
    }
    if Pending(view.proposals, view.candidates) != [] {
      assert Pending(view.proposals, view.candidates)[0] in Pending(view.proposals, view.candidates);
    }
  }

  lemma {:induction false} AssessedInIds(candidates: seq<Assessment>, id: string)
    ensures Assessed(candidates, id).Some? <==> id in Ids(candidates)
  {
    AssessedIsThere(candidates, id);
    if Assessed(candidates, id).Some? {
      var i :| 0 <= i < |candidates| && candidates[i] == Assessed(candidates, id).value;
      assert Ids(candidates)[i] == id;
    }
  }

  lemma {:induction false} ProposalIsThere(proposals: seq<Proposal>, id: string)
    ensures var found := ProposalOf(proposals, id);
            found.Some? ==> found.value in proposals && found.value.id == id
  {
    if proposals != [] {
      ProposalIsThere(proposals[1..], id);
    }
  }

  lemma {:induction false} RenderedIsPatched(settings: Settings, proposal: Proposal, model: string)
    ensures var content := SqlSafety.RenderDbtPatch(proposal, model);
            content.Reply? ==>
              Patched(settings, proposal.sourceField, Patch(content.value, settings.sha256(content.value)))
  {
    if SqlSafety.RenderDbtPatch(proposal, model).Reply? {
      SqlSafety.PatchIsExact(proposal, model);
    }
  }

  lemma {:induction false} ShipFacts(settings: Settings, d: Delivery, view: View)
    requires view.selected.Some? && view.patch.Some?
    ensures view.writeback.None? ==> StepFacts(settings, view, WriteEvidence(d, view.selected.value, view.patch.value))
    ensures view.writeback.Some? ==> StepFacts(settings, view, NotReady(view.writeback.value))
    ensures view.writeback.Some? && Ready(settings, view.writeback.value) ==>
      && StepFacts(settings, view, CreatePullRequest(d, view.patch.value))
      && (view.pullRequest.Some? && view.pullRequest.value.integration.status == SUCCEEDED ==>
          StepFacts(settings, view, Event(PrOpened(view.pullRequest.value), Some(PR_OPEN))))
  {
  }

  lemma {:induction false} DecideFacts(settings: Settings, d: Delivery, view: View, recent: set<string>)
    requires Decide(settings, d, view, recent).Some?
    ensures StepFacts(settings, view, Decide(settings, d, view, recent).value)
  {
    hide Validate, Contain;
    if view.incident.None? || !Ready(settings, view.incident.value) {
    } else if view.context.None? {
      ContainFacts(settings, d, view, [ContextIncomplete]);
    } else if !Complete(view.context.value) {
      ContainFacts(settings, d, view, [PersistedContextIncomplete]);
    } else if view.generation.None? || view.proposals == [] {
      ContainFacts(settings, d, view, [NoCompatibleCandidate]);
    } else if Ready(settings, view.generation.value) && DistinctIds(view.proposals) {
      ValidateFacts(settings, d, view, recent);
    }
  }

  // ---- What holds of every stream ----

  /** Neither contained nor failed. */
  predicate Alive(view: View) {
    view.state != CONTAINED && view.state != CaseState.FAILED
  }

  /** Which results a case has, by how far it got. */
  ghost predicate Shape(settings: Settings, view: View) {
    var n := Depth(view.state);
    && (n >= 1 ==> view.incident.Some? && Ready(settings, view.incident.value))
    && (n >= 1 <==> view.context.Some?)
    && (n >= 1 ==> LiveContext(settings, view.context.value))
    && (n >= 2 <==> view.generation.Some?)
    && (n >= 2 ==> view.proposals != [] && Ready(settings, view.generation.value))
    && (n < 2 ==> view.proposals == [])
    && (n >= 3 ==> DistinctIds(view.proposals))
    && (n < 3 ==> view.candidates == [])
    && (n >= 4 <==> view.selected.Some?)
    && (n >= 4 <==> view.patch.Some?)
    && (n < 4 ==> view.writeback.None? && view.pullRequest.None?)
    && (n == 4 && view.pullRequest.Some? ==> view.pullRequest.value.integration.status != SUCCEEDED)
    && (n >= 5 ==>
        && view.writeback.Some? && Ready(settings, view.writeback.value)
        && view.pullRequest.Some? && view.pullRequest.value.integration.status == SUCCEEDED)
  }

  ghost predicate Distinct(ids: seq<string>) {
    forall i, j :: 0 <= i < j < |ids| ==> ids[i] != ids[j]
  }

  /** The selected candidate is the one entry marked so, its checks are those of the policy on
      its execution, all of them passed, no other candidate that passed ranks before it, the patch
      is for its column, and every proposal was assessed. */
  ghost predicate Selection(settings: Settings, view: View) {
    && view.selected.Some?
    && (exists k :: OnlySelected(view.candidates, view.selected.value, k))
    && Judged(settings, view.selected.value) && Passed(view.selected.value.checks)
    && (forall a :: a in view.candidates && a.outcome != REJECTED ==> !RanksBefore(a, view.selected.value))
    && view.patch.Some? && Patched(settings, view.selected.value.sourceField, view.patch.value)
    && EachAssessed(view)
  }

  ghost predicate CandidatesOk(settings: Settings, view: View) {
    && (forall a :: a in view.candidates ==> Judged(settings, a) && Proposed(view.proposals, a))
    && (Depth(view.state) < 4 ==> forall a :: a in view.candidates ==> a.outcome != SELECTED)
    && (Depth(view.state) >= 4 ==> Selection(settings, view))
  }

  function Count(events: seq<Event>, kind: Body -> bool): nat {
    if events == [] then 0
    else Count(events[..|events| - 1], kind) + Flag(kind(events[|events| - 1].body))
  }

  lemma {:induction false} CountStep(events: seq<Event>, event: Event, kind: Body -> bool)
    ensures Count(events + [event], kind) == Count(events, kind) + Flag(kind(event.body))
  {
    assert (events + [event])[..|events|] == events;
  }

  predicate IsIncidentRaised(body: Body) { body.IncidentRaised? }
  predicate IsContextGathered(body: Body) { body.ContextGathered? }
  predicate IsCandidatesReady(body: Body) { body.CandidatesReady? }
  predicate IsValidationStarted(body: Body) { body.ValidationStarted? }
  predicate IsPatchReady(body: Body) { body.PatchReady? }
  predicate IsEvidenceWritten(body: Body) { body.EvidenceWritten? }
  predicate IsPrOpened(body: Body) { body.PrOpened? }
  predicate IsCaseContained(body: Body) { body.CaseContained? }

  /** How often each stage was recorded. */
  ghost predicate Counts(events: seq<Event>, view: View) {
    && Count(events, IsIncidentRaised) == Flag(view.incident.Some?)
    && Count(events, IsContextGathered) == Flag(view.context.Some?)
    && Count(events, IsCandidatesReady) == Flag(view.generation.Some?)
    && Count(events, IsValidationStarted) <= Flag(!Alive(view) || Depth(view.state) >= 3)
    && Count(events, IsPatchReady) == Flag(view.selected.Some?)
    && Count(events, IsEvidenceWritten) <= Flag(view.writeback.Some?)
    && (Alive(view) ==> Count(events, IsEvidenceWritten) == Flag(view.writeback.Some?))
    && Count(events, IsPrOpened) <= Flag(!Alive(view) || Depth(view.state) >= 5)
    && (Alive(view) ==> Count(events, IsCaseContained) == 0)
  }

  /** How a case past PR_OPEN got there: the draft, the deployment, the verification with every
      check passed, the resolution - and for a live incident, only on recomputed evidence. */
  ghost predicate Ending(settings: Settings, events: seq<Event>, view: View) {
    var n := |events|;
    && (view.state == PR_OPEN ==> n >= 1 && events[n - 1].body.PrOpened?)
    && (view.state == DEPLOYED ==>
        n >= 2 && events[n - 2].body.PrOpened? && Deployed(view, events[n - 1].body))
    && (view.state == POST_DEPLOY_VERIFIED ==>
        && n >= 3 && events[n - 3].body.PrOpened? && Deployed(view, events[n - 2].body)
        && VerifiedAfter(settings, events[n - 2].body, events[n - 1].body))
    && (view.state == RESOLVED ==>
        && n >= 4 && events[n - 4].body.PrOpened? && Deployed(view, events[n - 3].body)
        && VerifiedAfter(settings, events[n - 3].body, events[n - 2].body)
        && Resolution(view, events[n - 1].body))
  }

  ghost predicate Deployed(view: View, body: Body) {
    body.DeploymentRecorded? && (Deployment.IncidentIsLive(view) ==> body.mode == LIVE_RECOMPUTED)
  }

  /** The checks of a verification are those of the policy on the execution it records. */
  ghost predicate VerifiedAfter(settings: Settings, deployment: Body, body: Body) {
    && deployment.DeploymentRecorded? && body.PostDeployVerified?
    && body.verifiedCommit == deployment.commit && body.verifiedMode == deployment.mode
    && body.checks == Policy.Checks(settings.policy, body.verified, true) && Passed(body.checks)
  }

  ghost predicate Resolution(view: View, body: Body) {
    body.IncidentResolved? && (Deployment.IncidentIsLive(view) ==> body.resolution.status == SUCCEEDED)
  }

  ghost predicate Invariant(settings: Settings, events: seq<Event>) {
    && Started(events)
    && var view := Fold(events);
       && Counts(events, view)
       && Distinct(Ids(view.candidates))
       && (Alive(view) ==> Shape(settings, view) && CandidatesOk(settings, view) && Ending(settings, events, view))
  }

  // ---- One step keeps it ----

  /** No stage is recorded again once its result is there. */
  ghost predicate NotAgain(view: View, event: Event) {
    && Alive(view) && event.state.Some?
    && (event.body.IncidentRaised? ==> view.incident.None?)
    && (event.body.ContextGathered? ==> view.context.None?)
    && (event.body.CandidatesReady? ==> view.generation.None?)
    && (event.body.ValidationStarted? ==> Depth(view.state) < 3 && event.state.value == VALIDATING)
    && (event.body.PatchReady? ==> view.selected.None?)
    && (event.body.EvidenceWritten? ==> view.writeback.None?)
    && (event.body.PrOpened? ==> Depth(view.state) < 5 && event.state.value == PR_OPEN)
    && (event.body.CaseContained? ==> event.state.value == CONTAINED)
    && Depth(view.state) <= Depth(event.state.value)
  }

  lemma {:induction false} CountsKept(events: seq<Event>, view: View, event: Event)
    requires Counts(events, view) && NotAgain(view, event)
    ensures Counts(events + [event], Apply(view, event))
  {
    hide Count, Apply;
    CountStep(events, event, IsIncidentRaised);
    CountStep(events, event, IsContextGathered);
    CountStep(events, event, IsCandidatesReady);
    CountStep(events, event, IsValidationStarted);
    CountStep(events, event, IsPatchReady);
    CountStep(events, event, IsEvidenceWritten);
    CountStep(events, event, IsPrOpened);
    CountStep(events, event, IsCaseContained);
    ApplyFields(view, event);
  }

  lemma {:induction false} StepIsNotAgain(settings: Settings, view: View, event: Event)
    requires view.state in RESUMABLE && Shape(settings, view) && StepFacts(settings, view, event)
    requires ValidTransition(Some(view.state), event.state.value)
    ensures NotAgain(view, event)
  {
    hide LiveContext, Judged, Eligible, Best, Assessed;
  }

  lemma {:induction false} ShapeKept(settings: Settings, view: View, event: Event)
    requires view.state in RESUMABLE && Shape(settings, view) && StepFacts(settings, view, event)
    requires ValidTransition(Some(view.state), event.state.value)
    ensures var after := Apply(view, event);
            Alive(after) ==> Shape(settings, after)
  {
    hide LiveContext, Judged, Eligible, Best, Assessed, Apply;
    ApplyFields(view, event);
  }

  // ---- Selection ----

  /** Of any list, the best is one of it and none ranks before it. */
  lemma {:induction false} BestIsLeast(eligible: seq<Assessment>)
    requires eligible != []
    ensures Best(eligible) in eligible
    ensures forall a :: a in eligible ==> !RanksBefore(a, Best(eligible))
  {
    if |eligible| > 1 {
      var init := eligible[..|eligible| - 1];
      var last := eligible[|eligible| - 1];
      BestIsLeast(init);
      forall a | a in eligible ensures !RanksBefore(a, Best(eligible)) {
        if a in init {
          RankingIsTransitive(a, Best(init), last);
        }
      }
    }
  }

  lemma {:induction false} RankingIsTransitive(a: Assessment, b: Assessment, c: Assessment)
    requires !RanksBefore(a, b)
    ensures !RanksBefore(c, c)
    ensures RanksBefore(c, b) ==> !RanksBefore(a, c)
  {
    Canonical.TextLeTotal(a.sourceField, b.sourceField);
    Canonical.TextLeTotal(b.sourceField, c.sourceField);
    Canonical.TextLeTotal(a.sourceField, c.sourceField);
    if Canonical.TextLe(a.sourceField, c.sourceField) && Canonical.TextLe(c.sourceField, b.sourceField) {
      Canonical.TextLeTransitive(a.sourceField, c.sourceField, b.sourceField);
    }
  }

  /** Two candidates of which neither ranks before the other map the same field. */
  lemma {:induction false} TiesShareField(a: Assessment, b: Assessment)
    requires !RanksBefore(a, b) && !RanksBefore(b, a)
    ensures a.sourceField == b.sourceField
    ensures Policy.Abs(a.execution.metrics.totalVariance) == Policy.Abs(b.execution.metrics.totalVariance)
    ensures Policy.Abs(a.execution.metrics.rowVariance) == Policy.Abs(b.execution.metrics.rowVariance)
  {
    Canonical.TextLeTotal(a.sourceField, b.sourceField);
  }

  /** The chosen field depends on what is eligible, not on the order it was proposed in. */
  lemma {:induction false} ChoiceIgnoresOrder(a: seq<Assessment>, b: seq<Assessment>)
    requires a != [] && b != []
    requires forall x :: x in a <==> x in b
    ensures Best(a).sourceField == Best(b).sourceField
  {
    BestIsLeast(a);
    BestIsLeast(b);
    TiesShareField(Best(a), Best(b));
  }

  /** The assessments that one set of adapters gives the proposals, in their order. */
  function Assessments(settings: Settings, d: Delivery, proposals: seq<Proposal>, context: Context): seq<Assessment> {
    seq(|proposals|, i requires 0 <= i < |proposals| => Assess(settings, d, proposals[i], context))
  }

  lemma {:induction false} AssessmentOf(settings: Settings, d: Delivery, proposals: seq<Proposal>, context: Context,
        n: nat, i: nat)
    requires DistinctIds(proposals) && i < n <= |proposals|
    ensures Assessed(Assessments(settings, d, proposals, context)[..n], proposals[i].id)
            == Some(Assess(settings, d, proposals[i], context))
    decreases n
  {
    hide Policy.Evaluate;
    var all := Assessments(settings, d, proposals, context);
    if i < n - 1 {
      AssessmentOf(settings, d, proposals, context, n - 1, i);
      assert all[..n][..n - 1] == all[..n - 1];
      assert all[n - 1].id == proposals[n - 1].id != proposals[i].id;
    }
  }

  ghost predicate AssessedFrom(settings: Settings, d: Delivery, proposals: seq<Proposal>, context: Context,
        a: Assessment) {
    exists p :: p in proposals && a == Assess(settings, d, p, context)
  }

  lemma {:induction false} AssessedFromStep(settings: Settings, d: Delivery, proposals: seq<Proposal>, last: Proposal,
                                            context: Context, a: Assessment)
    ensures AssessedFrom(settings, d, proposals + [last], context, a) <==>
            AssessedFrom(settings, d, proposals, context, a) || a == Assess(settings, d, last, context)
  {
    hide Assess;
    assert forall p :: p in proposals + [last] <==> p in proposals || p == last;
  }

  lemma {:induction false} EligibleStepIn(proposals: seq<Proposal>, n: nat, candidates: seq<Assessment>,
        found: Assessment, a: Assessment)
    requires n < |proposals| && Assessed(candidates, proposals[n].id) == Some(found)
    ensures a in Eligible(proposals[..n + 1], candidates) <==>
            a in Eligible(proposals[..n], candidates) || (a == found && found.outcome != REJECTED)
  {
    AdvanceSteps.EligibleStep(proposals, n, candidates);
  }

  /** The eligible assessments are those of the proposals that pass, whatever the order. */
  lemma {:induction false} EligibleOfAll(settings: Settings, d: Delivery, proposals: seq<Proposal>,
        context: Context, n: nat, a: Assessment)
    requires DistinctIds(proposals) && n <= |proposals|
    ensures a in Eligible(proposals[..n], Assessments(settings, d, proposals, context)) <==>
            a.outcome != REJECTED && AssessedFrom(settings, d, proposals[..n], context, a)
    decreases n
  {
    hide Assess, Assessed, Assessments, Eligible, DistinctIds, AssessedFrom;
    if n == 0 {
      NoneEligible(settings, d, proposals, context, a);
    } else {
      var all := Assessments(settings, d, proposals, context);
      EligibleOfAll(settings, d, proposals, context, n - 1, a);
      AssessmentOfAll(settings, d, proposals, context, n - 1);
      EligibleStepIn(proposals, n - 1, all, Assess(settings, d, proposals[n - 1], context), a);
      AssessedFromStep(settings, d, proposals[..n - 1], proposals[n - 1], context, a);
      assert proposals[..n] == proposals[..n - 1] + [proposals[n - 1]];
    }
  }

  lemma {:induction false} NoneEligible(settings: Settings, d: Delivery, proposals: seq<Proposal>, context: Context,
        a: Assessment)
    ensures a !in Eligible(proposals[..0], Assessments(settings, d, proposals, context))
    ensures !AssessedFrom(settings, d, proposals[..0], context, a)
  {
    hide Assess, Assessments;
  }

  lemma {:induction false} AssessmentOfAll(settings: Settings, d: Delivery, proposals: seq<Proposal>,
        context: Context, i: nat)
    requires DistinctIds(proposals) && i < |proposals|
    ensures Assessed(Assessments(settings, d, proposals, context), proposals[i].id)
            == Some(Assess(settings, d, proposals[i], context))
  {
    hide Assess, Assessed, DistinctIds;
    AssessmentOf(settings, d, proposals, context, |proposals|, i);
    var all := Assessments(settings, d, proposals, context);
    assert all[..|proposals|] == all;
  }

  /** Proposed in another order and assessed alike, the candidates give the same source field. */
  lemma {:induction false} ChoiceIgnoresProposalOrder(settings: Settings, d: Delivery, a: seq<Proposal>,
        b: seq<Proposal>, context: Context)
    requires DistinctIds(a) && DistinctIds(b) && multiset(a) == multiset(b)
    ensures var x := Eligible(a, Assessments(settings, d, a, context));
            var y := Eligible(b, Assessments(settings, d, b, context));
            && (x == [] <==> y == [])
            && (x != [] ==> Best(x).sourceField == Best(y).sourceField)
  {
    hide Assess, Assessments, Eligible, Best;
    var x, y := Eligible(a, Assessments(settings, d, a, context)), Eligible(b, Assessments(settings, d, b, context));
    assert a[..|a|] == a && b[..|b|] == b;
    assert forall p :: p in a <==> p in multiset(a);
    assert forall p :: p in b <==> p in multiset(b);
    forall e ensures e in x <==> e in y {
      EligibleOfAll(settings, d, a, context, |a|, e);
      EligibleOfAll(settings, d, b, context, |b|, e);
      assert AssessedFrom(settings, d, a, context, e) <==> AssessedFrom(settings, d, b, context, e);
    }
    assert (x != [] ==> x[0] in y) && (y != [] ==> y[0] in x);
    if x != [] {
      ChoiceIgnoresOrder(x, y);
    }
  }

  lemma {:induction false} EligibleAreCandidates(proposals: seq<Proposal>, candidates: seq<Assessment>)
    ensures forall a :: a in Eligible(proposals, candidates) ==> a in candidates && a.outcome != REJECTED
  {
    if proposals != [] {
      EligibleAreCandidates(proposals[..|proposals| - 1], candidates);
      AssessedIsThere(candidates, proposals[|proposals| - 1].id);
    }
  }

  lemma {:induction false} AssessedIsThere(candidates: seq<Assessment>, id: string)
    ensures Assessed(candidates, id).Some? ==> Assessed(candidates, id).value in candidates
                                               && Assessed(candidates, id).value.id == id
    ensures Assessed(candidates, id).None? ==> id !in Ids(candidates)
  {
    if candidates != [] {
      AssessedIsThere(candidates[..|candidates| - 1], id);
      assert candidates == candidates[..|candidates| - 1] + [candidates[|candidates| - 1]];
      assert Ids(candidates) == Ids(candidates[..|candidates| - 1]) + [candidates[|candidates| - 1].id];
    }
  }

  /** With distinct ids, every candidate of some proposal that passed is eligible. */
  lemma {:induction false} CandidatesAreEligible(proposals: seq<Proposal>, candidates: seq<Assessment>, a: Assessment)
    requires Distinct(Ids(candidates)) && a in candidates && a.outcome != REJECTED
    requires exists p :: p in proposals && p.id == a.id
    ensures a in Eligible(proposals, candidates)
  {
    var p :| p in proposals && p.id == a.id;
    var last := proposals[|proposals| - 1];
    if last.id == a.id {
      DistinctIsFound(candidates, a);
    } else {
      var i :| 0 <= i < |proposals| && proposals[i] == p;
      assert proposals[..|proposals| - 1][i] == p;
      CandidatesAreEligible(proposals[..|proposals| - 1], candidates, a);
    }
  }

  lemma {:induction false} DistinctIsFound(candidates: seq<Assessment>, a: Assessment)
    requires Distinct(Ids(candidates)) && a in candidates
    ensures Assessed(candidates, a.id) == Some(a)
  {
    AssessedIsThere(candidates, a.id);
    var i :| 0 <= i < |candidates| && candidates[i] == a;
    assert Ids(candidates)[i] == a.id;
    var found := Assessed(candidates, a.id).value;
    var j :| 0 <= j < |candidates| && candidates[j] == found;
    assert Ids(candidates)[j] == a.id;
  }

  lemma {:induction false} AssessmentKeepsCandidates(settings: Settings, view: View, event: Event)
    requires Shape(settings, view) && CandidatesOk(settings, view) && Distinct(Ids(view.candidates))
    requires event.body.CandidateAssessed? && StepFacts(settings, view, event) && Depth(view.state) == 3
    ensures CandidatesOk(settings, Apply(view, event)) && Distinct(Ids(Apply(view, event).candidates))
  {
    var a := event.body.assessment;
    AssessedIsThere(view.candidates, a.id);
    var after := Apply(view, event);
    assert after == view.(state := VALIDATING, candidates := view.candidates + [a]);
    assert Ids(after.candidates) == Ids(view.candidates) + [a.id];
    assert Judged(settings, a);
    forall c | c in after.candidates
      ensures Judged(settings, c) && Proposed(after.proposals, c)
    {
      assert c in view.candidates || c == a;
    }
  }

  /** Selecting the best eligible candidate makes the selection hold. */
  lemma {:induction false} PatchMakesSelection(settings: Settings, view: View, selected: Assessment)
    requires CandidatesOk(settings, view) && Distinct(Ids(view.candidates)) && Depth(view.state) == 3
    requires Eligible(view.proposals, view.candidates) != []
    requires selected == Best(Eligible(view.proposals, view.candidates)).(outcome := SELECTED)
    ensures var after := ReplaceAssessment(view.candidates, selected);
            && Distinct(Ids(after))
            && (exists k :: OnlySelected(after, selected, k))
            && (forall c :: c in after ==> Judged(settings, c) && Proposed(view.proposals, c))
            && Judged(settings, selected) && Passed(selected.checks)
            && (forall c :: c in after && c.outcome != REJECTED ==> !RanksBefore(c, selected))
  {
    hide RanksBefore, Policy.Checks;
    var eligible := Eligible(view.proposals, view.candidates);
    var best := Best(eligible);
    BestIsLeast(eligible);
    EligibleAreCandidates(view.proposals, view.candidates);
    assert best in view.candidates && Judged(settings, best) && Judged(settings, selected);
    var at :| 0 <= at < |view.candidates| && view.candidates[at] == best;
    assert Ids(view.candidates)[at] == selected.id;
    forall i, j | 0 <= i < j < |view.candidates| ensures view.candidates[i].id != view.candidates[j].id {
      assert Ids(view.candidates)[i] != Ids(view.candidates)[j];
    }
    ReplaceSelectsOne(view.candidates, selected);
    var after := ReplaceAssessment(view.candidates, selected);
    forall c | c in after
      ensures Judged(settings, c) && Proposed(view.proposals, c)
      ensures c.outcome != REJECTED ==> !RanksBefore(c, selected)
    {
      var i :| 0 <= i < |after| && after[i] == c;
      assert view.candidates[i] in view.candidates && view.candidates[i].id == c.id;
      RankIgnoresOutcome(best, best);
      RankIgnoresOutcome(view.candidates[i], best);
      if c != selected && c.outcome != REJECTED {
        CandidatesAreEligible(view.proposals, view.candidates, c);
      } else {
        assert best in eligible;
      }
    }
  }

  lemma {:induction false} RankIgnoresOutcome(a: Assessment, b: Assessment)
    ensures RanksBefore(a, b.(outcome := SELECTED)) == RanksBefore(a, b)
    ensures RanksBefore(a.(outcome := SELECTED), b.(outcome := SELECTED)) == RanksBefore(a, b)
  {
  }

  lemma {:induction false} CandidatesKept(settings: Settings, view: View, event: Event)
    requires view.state in RESUMABLE && StepFacts(settings, view, event)
    requires Shape(settings, view) && CandidatesOk(settings, view) && Distinct(Ids(view.candidates))
    requires ValidTransition(Some(view.state), event.state.value)
    ensures var after := Apply(view, event);
            Distinct(Ids(after.candidates)) && (Alive(after) ==> CandidatesOk(settings, after))
  {
    hide Apply, CandidatesOk, Shape, StepFacts, Distinct;
    if event.body.CandidateAssessed? {
      AssessedKeepsCandidates(settings, view, event);
    } else if event.body.PatchReady? {
      PatchKeepsCandidates(settings, view, event);
    } else {
      StageKeepsCandidates(settings, view, event);
    }
  }

  lemma {:induction false} AssessedKeepsCandidates(settings: Settings, view: View, event: Event)
    requires event.body.CandidateAssessed? && StepFacts(settings, view, event) && view.state in RESUMABLE
    requires Shape(settings, view) && CandidatesOk(settings, view) && Distinct(Ids(view.candidates))
    requires ValidTransition(Some(view.state), event.state.value)
    ensures CandidatesOk(settings, Apply(view, event)) && Distinct(Ids(Apply(view, event).candidates))
  {
    hide Apply, CandidatesOk, Shape, Distinct, Judged, DistinctIds, Assessed;
    AssessmentKeepsCandidates(settings, view, event);
  }

  lemma {:induction false} PatchKeepsCandidates(settings: Settings, view: View, event: Event)
    requires event.body.PatchReady? && StepFacts(settings, view, event) && view.state in RESUMABLE
    requires ValidTransition(Some(view.state), event.state.value)
    requires Shape(settings, view) && CandidatesOk(settings, view) && Distinct(Ids(view.candidates))
    ensures CandidatesOk(settings, Apply(view, event)) && Distinct(Ids(Apply(view, event).candidates))
  {
    hide LiveContext, Judged, Best, RanksBefore, Apply, Eligible, Passed, Patched, Proposed;
    ApplyFields(view, event);
    PatchMakesSelection(settings, view, event.body.selected);
    PatchIsForSelected(settings, view, event);
    assert Ids(ReplaceAssessment(view.candidates, event.body.selected)) == Ids(view.candidates);
  }

  /** Ids are distinct, so the proposal that was rendered is the one the selected was made from. */
  lemma {:induction false} PatchIsForSelected(settings: Settings, view: View, event: Event)
    requires event.body.PatchReady? && StepFacts(settings, view, event) && CandidatesOk(settings, view)
    ensures Patched(settings, event.body.selected.sourceField, event.body.patch)
  {
    hide Eligible, Best, Judged, Patched, Selection, Shape, EachAssessed, Alive;
    var selected := event.body.selected;
    var p :| p in view.proposals && p.id == selected.id && Patched(settings, p.sourceField, event.body.patch);
    var eligible := Eligible(view.proposals, view.candidates);
    BestIsLeast(eligible);
    EligibleAreCandidates(view.proposals, view.candidates);
    assert Proposed(view.proposals, Best(eligible));
    var q :| q in view.proposals && q.id == selected.id && q.sourceField == selected.sourceField;
    var i :| 0 <= i < |view.proposals| && view.proposals[i] == p;
    var j :| 0 <= j < |view.proposals| && view.proposals[j] == q;
    assert i == j;
  }

  /** Any other stage leaves the candidates and their selection alone. */
  lemma {:induction false} StageKeepsCandidates(settings: Settings, view: View, event: Event)
    requires !event.body.CandidateAssessed? && !event.body.PatchReady? && StepFacts(settings, view, event)
    requires view.state in RESUMABLE && Shape(settings, view) && CandidatesOk(settings, view)
    requires Distinct(Ids(view.candidates)) && ValidTransition(Some(view.state), event.state.value)
    ensures var after := Apply(view, event);
            Distinct(Ids(after.candidates)) && (Alive(after) ==> CandidatesOk(settings, after))
  {
    hide LiveContext, Judged, Best, RanksBefore, Apply, Eligible, Passed, OnlySelected;
    ApplyFields(view, event);
  }

  /** One step of the workflow keeps the invariant. */
  lemma {:induction false} StepKeepsInvariant(settings: Settings, d: Delivery, events: seq<Event>, recent: set<string>)
    requires Invariant(settings, events) && Next(settings, d, events, recent).Some?
    ensures Invariant(settings, events + [Next(settings, d, events, recent).value])
  {
    var event := Next(settings, d, events, recent).value;
    NextFacts(settings, d, events, recent);
    hide Next, StepFacts;
    FactsKeepInvariant(settings, events, event);
  }

  lemma {:induction false} NextFacts(settings: Settings, d: Delivery, events: seq<Event>, recent: set<string>)
    requires Started(events) && Next(settings, d, events, recent).Some?
    ensures var event := Next(settings, d, events, recent).value;
      && StepFacts(settings, Fold(events), event)
      && Fold(events).state in RESUMABLE && ValidTransition(Some(Fold(events).state), event.state.value)
  {
    DecideFacts(settings, d, Fold(events), recent);
    hide Decide, Fold, LiveContext, Judged, Best, Eligible;
  }

  lemma {:induction false} FactsKeepInvariant(settings: Settings, events: seq<Event>, event: Event)
    requires Invariant(settings, events) && StepFacts(settings, Fold(events), event)
    requires Fold(events).state in RESUMABLE && ValidTransition(Some(Fold(events).state), event.state.value)
    ensures Invariant(settings, events + [event])
  {
    FoldStep(events, event);
    hide Fold, Apply, Counts, CandidatesOk, Shape, Ending, StepFacts, Started, Distinct;
    var view := Fold(events);
    AliveWhenResumable(view);
    StepIsNotAgain(settings, view, event);
    CountsKept(events, view, event);
    ShapeKept(settings, view, event);
    CandidatesKept(settings, view, event);
    EndingStarts(settings, events, view, event);
  }

  lemma {:induction false} AliveWhenResumable(view: View)
    ensures view.state in RESUMABLE ==> Alive(view)
  {
  }

  /** The one step out of the resumable states that keeps the case alive is the draft's. */
  lemma {:induction false} EndingStarts(settings: Settings, events: seq<Event>, view: View, event: Event)
    requires view.state in RESUMABLE && StepFacts(settings, view, event)
    requires ValidTransition(Some(view.state), event.state.value)
    ensures var after := Apply(view, event);
            Alive(after) ==> Ending(settings, events + [event], after)
  {
    hide Apply, LiveContext, Judged, Best, Eligible, DistinctIds, Assessed;
    ApplyFields(view, event);
    assert (events + [event])[|events|] == event;
  }

  // ---- Post-deploy verification keeps it ----

  /** What a verification may record after these events. */
  ghost predicate ClosingFacts(settings: Settings, events: seq<Event>, view: View, event: Event) {
    && |events| > 0
    && match event.body
       case DeploymentRecorded(_, _) => view.state == PR_OPEN && event.state == Some(DEPLOYED)
           && Deployed(view, event.body)
       case PostDeployVerified(_, _, _, _) =>
         view.state == DEPLOYED && event.state == Some(POST_DEPLOY_VERIFIED)
             && VerifiedAfter(settings, events[|events| - 1].body, event.body)
       case IncidentResolved(_) =>
         view.state == POST_DEPLOY_VERIFIED && event.state == Some(RESOLVED) && Resolution(view, event.body)
       case CaseContained(_, _) => event.state == Some(CONTAINED)
       case CaseFailed(_) => event.state == Some(CaseState.FAILED)
       case _ => false
  }

  lemma {:induction false} EndingKept(settings: Settings, events: seq<Event>, view: View, event: Event)
    requires Ending(settings, events, view) && ClosingFacts(settings, events, view, event)
    requires Depth(view.state) in {5, 6, 7} && event.state.Some?
    ensures var after := Apply(view, event);
            Alive(after) ==> Ending(settings, events + [event], after)
  {
    hide Apply, Passed;
    ApplyFields(view, event);
    var longer := events + [event];
    assert forall i :: 0 <= i < |events| ==> longer[i] == events[i];
    assert longer[|events|] == event;
  }

  lemma {:induction false} ClosingKeepsShape(settings: Settings, events: seq<Event>, view: View, event: Event)
    requires Shape(settings, view) && CandidatesOk(settings, view) && ClosingFacts(settings, events, view, event)
    requires Depth(view.state) in {5, 6, 7}
    ensures var after := Apply(view, event);
            && NotAgain(view, event)
            && after.candidates == view.candidates
            && (Alive(after) ==> Shape(settings, after) && CandidatesOk(settings, after))
  {
    hide Apply, Passed, Judged, LiveContext, RanksBefore, OnlySelected;
    ApplyFields(view, event);
  }

  lemma {:induction false} ClosingKeepsInvariant(settings: Settings, events: seq<Event>, event: Event)
    requires Invariant(settings, events) && ClosingFacts(settings, events, Fold(events), event)
    requires Depth(Fold(events).state) in {5, 6, 7}
    ensures Invariant(settings, events + [event])
  {
    var view := Fold(events);
    FoldStep(events, event);
    hide Fold, Apply, Counts, CandidatesOk, Shape, Ending;
    ClosingKeepsShape(settings, events, view, event);
    CountsKept(events, view, event);
    EndingKept(settings, events, view, event);
  }

  /** Every prefix of what a verification records. */
  lemma {:induction false} VerificationKeepsInvariant(settings: Settings, caseId: string, w: Deployment.Adapters,
                                                      request: Deployment.Request, events: seq<Event>, n: nat)
    requires Invariant(settings, events)
    requires n <= |Deployment.Verify(settings, caseId, w, Fold(events), request).events|
    ensures Invariant(settings, events + Deployment.Verify(settings, caseId, w, Fold(events), request).events[..n])
  {
    hide *;
    StartedInvariant(settings, events);
    var closing := Deployment.Verify(settings, caseId, w, Fold(events), request).events;
    if n == 0 {
      assert events + closing[..0] == events;
    } else {
      VerificationKeepsInvariant(settings, caseId, w, request, events, n - 1);
      var before := events + closing[..n - 1];
      assert events + closing[..n] == before + [closing[n - 1]];
      ClosingStep(settings, caseId, w, request, events, n - 1);
      ClosingKeepsInvariant(settings, before, closing[n - 1]);
    }
  }

  /** Where a verification stands before its event k: the state has moved, the incident has not. */
  lemma {:induction false} ClosingView(settings: Settings, caseId: string, w: Deployment.Adapters,
                                       request: Deployment.Request, events: seq<Event>, k: nat)
    requires Started(events)
    requires k < |Deployment.Verify(settings, caseId, w, Fold(events), request).events|
    ensures var closing := Deployment.Verify(settings, caseId, w, Fold(events), request).events;
            var before := events + closing[..k];
            && Started(before)
            && Fold(before).incident == Fold(events).incident
            && Fold(before).state == if k == 0 then PR_OPEN else if k == 1 then DEPLOYED else POST_DEPLOY_VERIFIED
  {
    hide *;
    var view := Fold(events);
    var closing := Deployment.Verify(settings, caseId, w, view, request).events;
    VerifyShape(settings, caseId, w, view, request);
    if k == 0 {
      assert events + closing[..0] == events;
      ShapeStates(settings, view, closing, 0);
    } else {
      ClosingView(settings, caseId, w, request, events, k - 1);
      var earlier := events + closing[..k - 1];
      FoldStep(earlier, closing[k - 1]);
      ShapeStates(settings, view, closing, k);
      IncidentStays(Fold(earlier), closing[k - 1]);
      assert events + closing[..k] == earlier + [closing[k - 1]];
    }
  }

  /** The states a verification goes through; none of its events is about the incident's raising. */
  lemma {:induction false} ShapeStates(settings: Settings, view: View, closing: seq<Event>, k: nat)
    requires k < |closing| && ClosingShape(settings, view, closing)
    ensures view.state == PR_OPEN
    ensures k > 0 ==> !closing[k - 1].body.IncidentRaised? && k <= 2
                      && closing[k - 1].state == Some(if k == 1 then DEPLOYED else POST_DEPLOY_VERIFIED)
  {
    hide Passed, Policy.Checks, Deployment.IncidentIsLive;
  }

  lemma {:induction false} IncidentStays(view: View, event: Event)
    requires !event.body.IncidentRaised?
    ensures Apply(view, event).incident == view.incident
    ensures event.state.Some? ==> Apply(view, event).state == event.state.value
  {
    ApplyFields(view, event);
  }

  lemma {:induction false} ClosingStep(settings: Settings, caseId: string, w: Deployment.Adapters,
                    request: Deployment.Request, events: seq<Event>, k: nat)
    requires Started(events)
    requires k < |Deployment.Verify(settings, caseId, w, Fold(events), request).events|
    ensures var closing := Deployment.Verify(settings, caseId, w, Fold(events), request).events;
            var before := events + closing[..k];
            && Started(before) && Depth(Fold(before).state) in {5, 6, 7}
            && ClosingFacts(settings, before, Fold(before), closing[k])
  {
    hide *;
    ClosingView(settings, caseId, w, request, events, k);
    var closing := Deployment.Verify(settings, caseId, w, Fold(events), request).events;
    VerifyShape(settings, caseId, w, Fold(events), request);
    var before := events + closing[..k];
    StartedLength(before);
    if k > 0 {
      assert before[|before| - 1] == closing[k - 1];
    }
    ShapeGivesFacts(settings, before, Fold(before), Fold(events), closing, k);
  }

  lemma {:induction false} StartedLength(events: seq<Event>)
    requires Started(events)
    ensures |events| > 0
  {
  }

  lemma {:induction false} ShapeGivesFacts(settings: Settings, before: seq<Event>, view: View, start: View,
          closing: seq<Event>, k: nat)
    requires k < |closing| && ClosingShape(settings, start, closing) && view.incident == start.incident
    requires |before| > 0 && (k > 0 ==> before[|before| - 1] == closing[k - 1])
    requires view.state == if k == 0 then PR_OPEN else if k == 1 then DEPLOYED else POST_DEPLOY_VERIFIED
    ensures ClosingFacts(settings, before, view, closing[k]) && Depth(view.state) in {5, 6, 7}
  {
    hide Passed;
  }

  /** A verification records a deployment, then its verification, then one of three endings. */
  ghost predicate ClosingShape(settings: Settings, view: View, closing: seq<Event>) {
    && |closing| <= 3
    && (|closing| > 0 ==>
        view.state == PR_OPEN && Deployed(view, closing[0].body) && closing[0].state == Some(DEPLOYED))
    && (|closing| > 1 ==>
        || (closing[1].body.CaseContained? && closing[1].state == Some(CONTAINED))
        || (VerifiedAfter(settings, closing[0].body, closing[1].body)
            && closing[1].state == Some(POST_DEPLOY_VERIFIED)))
    && (|closing| > 2 ==>
        && closing[1].body.PostDeployVerified?
        && (|| (closing[2].body.CaseFailed? && closing[2].state == Some(CaseState.FAILED))
            || (Resolution(view, closing[2].body) && closing[2].state == Some(RESOLVED))))
  }

  lemma {:induction false} VerifyShape(settings: Settings, caseId: string, w: Deployment.Adapters, view: View,
        request: Deployment.Request)
    ensures ClosingShape(settings, view, Deployment.Verify(settings, caseId, w, view, request).events)
  {
    if view.state == PR_OPEN && Deployment.Evidence(settings, w, view, request).Reply? {
      var (evidence, mode) := Deployment.Evidence(settings, w, view, request).value;
      JudgeShape(settings, caseId, w, view, evidence, mode);
    }
    hide Deployment.Judge, Deployed, VerifiedAfter, Resolution;
  }

  lemma {:induction false} JudgeShape(settings: Settings, caseId: string, w: Deployment.Adapters, view: View,
        evidence: Deployment.LiveEvidence, mode: EvidenceMode)
    requires view.state == PR_OPEN && (Deployment.IncidentIsLive(view) ==> mode == LIVE_RECOMPUTED)
    ensures ClosingShape(settings, view, Deployment.Judge(settings, caseId, w, view, evidence, mode).events)
  {
    AcceptedAsCurrent(settings.policy, evidence.execution, evidence.lineageCurrent);
    hide Policy.Evaluate, Policy.Checks, Concise, Deployment.PolicyReasons, Passed, Deployment.IncidentIsLive;
  }

  /** Where the policy minds the lineage, it accepts a current one only. */
  lemma {:induction false} AcceptedAsCurrent(config: Policy.Config, execution: Execution, lineageCurrent: bool)
    ensures var decision := Policy.Evaluate(config, execution, lineageCurrent);
            decision.accepted ==> decision.checks == Policy.Checks(config, execution, true) && Passed(decision.checks)
  {
    var checks := Policy.Checks(config, execution, lineageCurrent);
    assert checks[6] in checks;
  }

  // ---- Every history ----

  /** Every prefix of a run keeps the invariant. */
  lemma {:induction false} RunKeepsInvariant(settings: Settings, d: Delivery, events: seq<Event>, n: nat)
    requires Invariant(settings, events) && |events| <= n <= |Run(settings, d, events, {})|
    ensures Invariant(settings, Run(settings, d, events, {})[..n])
    decreases n
  {
    hide Run, Invariant, Next;
    StartedInvariant(settings, events);
    var run := Run(settings, d, events, {});
    if n == |events| {
      assert run[..n] == events;
    } else {
      RunKeepsInvariant(settings, d, events, n - 1);
      var middle := RunPrefix(settings, d, events, {}, n - 1);
      StepKeepsInvariant(settings, d, run[..n - 1], middle);
      assert run[..n] == run[..n - 1] + [run[n - 1]];
    }
  }

  lemma {:induction false} StartedInvariant(settings: Settings, events: seq<Event>)
    requires Invariant(settings, events)
    ensures Started(events)
  {
  }

  lemma {:induction false} DetectionInvariant(settings: Settings, first: Event)
    requires Detection(first)
    ensures Invariant(settings, [first])
  {
    assert [first][..0] == [];
    assert Fold([first]) == Initial(first);
    assert forall kind: Body -> bool :: Count([first], kind) == Count([], kind) + Flag(kind(first.body));
  }

  /** Every prefix of every history of a case keeps the invariant. */
  lemma {:induction false} HistoryKeepsInvariant(settings: Settings, first: Event, actions: seq<Action>, n: nat)
    requires Detection(first) && 1 <= n <= |History(settings, first, actions)|
    ensures Invariant(settings, History(settings, first, actions)[..n])
    decreases |actions|
  {
    hide Invariant, Run, Deployment.Verify, Fold, Detection;
    var events := History(settings, first, actions);
    if actions == [] {
      DetectionInvariant(settings, first);
      assert events[..n] == [first];
    } else {
      var before := History(settings, first, actions[..|actions| - 1]);
      if n <= |before| {
        HistoryKeepsInvariant(settings, first, actions[..|actions| - 1], n);
        assert events[..n] == before[..n];
      } else {
        HistoryKeepsInvariant(settings, first, actions[..|actions| - 1], |before|);
        assert before[..|before|] == before;
        match actions[|actions| - 1]
        case Advance(d, _) =>
          RunKeepsInvariant(settings, d, before, n);
          assert events[..n] == Run(settings, d, before, {})[..n];
        case VerifyDeployment(caseId, w, request, _) =>
          VerificationKeepsInvariant(settings, caseId, w, request, before, n - |before|);
          var closing := Deployment.Verify(settings, caseId, w, Fold(before), request).events;
          assert events[..n] == before + closing[..n - |before|];
      }
    }
  }

  lemma {:induction false} HistoryInvariant(settings: Settings, first: Event, actions: seq<Action>)
    requires Detection(first)
    ensures Invariant(settings, History(settings, first, actions))
  {
    hide Invariant;
    var events := History(settings, first, actions);
    HistoryKeepsInvariant(settings, first, actions, |events|);
    assert events[..|events|] == events;
  }

  // ---- What the invariant promises ----

  /** No stage is recorded twice and no proposal is assessed twice. */
  ghost predicate StagesOnce(events: seq<Event>) {
    && Count(events, IsIncidentRaised) <= 1
    && Count(events, IsContextGathered) <= 1
    && Count(events, IsCandidatesReady) <= 1
    && Count(events, IsValidationStarted) <= 1
    && Count(events, IsPatchReady) <= 1
    && Count(events, IsEvidenceWritten) <= 1
    && Count(events, IsPrOpened) <= 1
    && Distinct(AssessedIds(events))
  }

  lemma {:induction false} StagesAtMostOnce(settings: Settings, events: seq<Event>)
    requires Invariant(settings, events)
    ensures StagesOnce(events)
  {
    FoldMeaning(events);
    hide Fold, Shape, CandidatesOk, Ending;
  }

  /** Incident, proposals and write-back succeeded, the context is live and complete, and the
      selected candidate passed policy and ranks first. */
  ghost predicate EvidenceInHand(settings: Settings, view: View) {
    && view.incident.Some? && view.incident.value.status == SUCCEEDED
    && view.generation.Some? && view.generation.value.status == SUCCEEDED
    && view.writeback.Some? && view.writeback.value.status == SUCCEEDED
    && view.context.Some? && Complete(view.context.value)
    && view.context.value.source == DATAHUB_MCP && view.context.value.integration.status == SUCCEEDED
    && Selection(settings, view)
  }

  lemma {:induction false} LatestIsThere<T>(events: seq<Event>, pick: Body -> Option<T>) returns (j: nat)
    requires Latest(events, pick).Some?
    ensures j < |events| && pick(events[j].body) == Latest(events, pick)
  {
    if pick(events[|events| - 1].body).Some? {
      j := |events| - 1;
    } else {
      j := LatestIsThere(events[..|events| - 1], pick);
    }
  }

  lemma {:induction false} CountedNever(events: seq<Event>, kind: Body -> bool, j: nat)
    requires Count(events, kind) == 0 && j < |events|
    ensures !kind(events[j].body)
  {
    if j < |events| - 1 {
      CountedNever(events[..|events| - 1], kind, j);
    }
  }

  /** Past the draft, in connected mode, all the evidence is there. */
  lemma {:induction false} ShapeHasEvidence(settings: Settings, view: View)
    requires !settings.replayMode && Depth(view.state) >= 5 && Shape(settings, view) && CandidatesOk(settings, view)
    ensures EvidenceInHand(settings, view)
  {
    hide Selection, Judged;
  }

  lemma {:induction false} OpenedInvariant(settings: Settings, events: seq<Event>)
    requires Invariant(settings, events) && !settings.replayMode && Fold(events).state == PR_OPEN
    ensures EvidenceInHand(settings, Fold(events))
    ensures |events| >= 1 && events[|events| - 1].body.PrOpened?
    ensures Count(events, IsCaseContained) == 0
  {
    hide Fold, EvidenceInHand, Shape, CandidatesOk, Count;
    ShapeHasEvidence(settings, Fold(events));
  }

  /** A write-back in hand was recorded by the stage that writes it. */
  lemma {:induction false} WrittenBack(settings: Settings, events: seq<Event>) returns (j: nat)
    requires Started(events) && Fold(events).writeback.Some? && Count(events, IsCaseContained) == 0
    ensures j < |events| && events[j].body.EvidenceWritten? && Some(events[j].body.evidence) == Fold(events).writeback
  {
    FoldMeaning(events);
    hide Fold, Count;
    j := LatestIsThere(events, PickWriteback);
    CountedNever(events, IsCaseContained, j);
  }

  /** In connected mode a case in PR_OPEN has all its evidence, and the opening of the draft is
      the last thing recorded - after the successful evidence write-back. */
  ghost predicate DraftHasEvidence(settings: Settings, events: seq<Event>)
    requires Started(events)
  {
    !settings.replayMode && Fold(events).state == PR_OPEN ==>
      && EvidenceInHand(settings, Fold(events))
      && events[|events| - 1].body.PrOpened?
      && exists j :: 0 <= j < |events| - 1 && events[j].body.EvidenceWritten?
                     && events[j].body.evidence.status == SUCCEEDED
  }

  lemma {:induction false} EvidencePrecedesDraft(settings: Settings, events: seq<Event>)
    requires Invariant(settings, events)
    ensures Started(events) && DraftHasEvidence(settings, events)
  {
    hide Fold, Invariant, Count, Selection, Complete;
    StartedInvariant(settings, events);
    if !settings.replayMode && Fold(events).state == PR_OPEN {
      OpenedInvariant(settings, events);
      var j := WrittenBack(settings, events);
      assert j != |events| - 1;
    }
  }

  /** A RESOLVED case ends with its draft, deployment, verification and resolution, in this
      order; the verification is of the deployed commit, and its checks are those of the policy
      on the execution it records, all passed. If the incident was live, the evidence was
      recomputed and the resolution succeeded. In connected mode the case had all its evidence
      before the draft. */
  ghost predicate ResolutionHasEvidence(settings: Settings, events: seq<Event>)
    requires Started(events)
  {
    var n := |events|;
    Fold(events).state == RESOLVED ==>
      && n >= 4
      && events[n - 4].body.PrOpened?
      && events[n - 3].body.DeploymentRecorded?
      && VerifiedAfter(settings, events[n - 3].body, events[n - 2].body)
      && events[n - 1].body.IncidentResolved?
      && (Deployment.IncidentIsLive(Fold(events)) ==>
          && events[n - 3].body.mode == LIVE_RECOMPUTED && events[n - 2].body.verifiedMode == LIVE_RECOMPUTED
          && events[n - 1].body.resolution.status == SUCCEEDED)
      && (!settings.replayMode ==> EvidenceInHand(settings, Fold(events)))
  }

  lemma {:induction false} EvidencePrecedesResolution(settings: Settings, events: seq<Event>)
    requires Invariant(settings, events)
    ensures Started(events) && ResolutionHasEvidence(settings, events)
  {
    hide Fold, Invariant, EvidenceInHand, Passed, Policy.Checks;
    StartedInvariant(settings, events);
    if Fold(events).state == RESOLVED {
      ResolvedInvariant(settings, events);
    }
  }

  lemma {:induction false} ResolvedInvariant(settings: Settings, events: seq<Event>)
    requires Invariant(settings, events) && Fold(events).state == RESOLVED
    ensures Ending(settings, events, Fold(events))
    ensures !settings.replayMode ==> EvidenceInHand(settings, Fold(events))
  {
    hide Fold, EvidenceInHand, Shape, CandidatesOk, Count, Ending;
    if !settings.replayMode {
      ShapeHasEvidence(settings, Fold(events));
    }
  }

  /** From PATCH_READY on, the projected candidates are the assessed ones in order, each with
      the policy's checks on its execution; exactly one is marked selected, it passed every
      check, and no other that passed ranks before it. */
  ghost predicate SelectsBest(settings: Settings, events: seq<Event>)
    requires Started(events)
  {
    var view := Fold(events);
    Alive(view) && Depth(view.state) >= 4 ==>
      && Selection(settings, view)
      && Ids(view.candidates) == AssessedIds(events)
      && (forall a :: a in view.candidates ==> Judged(settings, a))
  }

  lemma {:induction false} SelectionIsBest(settings: Settings, events: seq<Event>)
    requires Invariant(settings, events)
    ensures Started(events) && SelectsBest(settings, events)
  {
    FoldMeaning(events);
    hide Fold, Selection, Passed, Count;
  }

  // ---- Down to the data ----

  /** Under the default policy, checks that all passed on reconciled metrics bound the data. */
  lemma {:induction false} PassedBoundsData(settings: Settings, execution: Execution,
        current: Policy.Aggregate, baseline: Policy.Aggregate, joined: nat)
    requires settings.policy == Policy.DEFAULT && Passed(Policy.Checks(settings.policy, execution, true))
    requires execution.metrics == Policy.Reconcile(current, baseline, joined)
    ensures execution.verdict == MATCH && execution.build.passed && Policy.DataWithin(current, baseline, joined)
  {
    hide Policy.Checks, Policy.DataWithin, Policy.Reconcile;
    assert execution == Execution(execution.verdict, Policy.Reconcile(current, baseline, joined), execution.build);
    Policy.AcceptanceBoundsData(current, baseline, joined, execution.verdict, execution.build, true);
  }

  /** So under the default policy a selected candidate ran on data within the bounds, and so did
      the deployment of a resolved case. */
  lemma {:induction false} EvidenceBoundsData(settings: Settings, events: seq<Event>,
        current: Policy.Aggregate, baseline: Policy.Aggregate, joined: nat)
    requires Invariant(settings, events) && settings.policy == Policy.DEFAULT
    ensures var view := Fold(events);
            Alive(view) && Depth(view.state) >= 4 ==>
              && view.selected.Some?
              && var execution := view.selected.value.execution;
                 (execution.metrics == Policy.Reconcile(current, baseline, joined) ==>
                  execution.verdict == MATCH && Policy.DataWithin(current, baseline, joined))
    ensures var n := |events|;
            Fold(events).state == RESOLVED ==>
              && n >= 2 && events[n - 2].body.PostDeployVerified?
              && var execution := events[n - 2].body.verified;
                 (execution.metrics == Policy.Reconcile(current, baseline, joined) ==>
                  execution.verdict == MATCH && Policy.DataWithin(current, baseline, joined))
  {
    hide Fold, Invariant, Policy.Checks, Policy.DataWithin, Policy.Reconcile;
    SelectionIsBest(settings, events);
    EvidencePrecedesResolution(settings, events);
    var view, n := Fold(events), |events|;
    if Alive(view) && Depth(view.state) >= 4
        && view.selected.value.execution.metrics == Policy.Reconcile(current, baseline, joined) {
      PassedBoundsData(settings, view.selected.value.execution, current, baseline, joined);
    }
    if view.state == RESOLVED && events[n - 2].body.verified.metrics == Policy.Reconcile(current, baseline, joined) {
      PassedBoundsData(settings, events[n - 2].body.verified, current, baseline, joined);
    }
  }

  /** What holds of every history of a case, killed and resumed any number of times, whatever
      the adapters answer each time. */
  ghost predicate Promises(settings: Settings, events: seq<Event>) {
    && Started(events)
    && StagesOnce(events)
    && DraftHasEvidence(settings, events)
    && ResolutionHasEvidence(settings, events)
    && SelectsBest(settings, events)
  }

  lemma {:induction false} InvariantPromises(settings: Settings, events: seq<Event>)
    requires Invariant(settings, events)
    ensures Promises(settings, events)
  {
    hide Invariant, StagesOnce, DraftHasEvidence, ResolutionHasEvidence, SelectsBest;
    StagesAtMostOnce(settings, events);
    EvidencePrecedesDraft(settings, events);
    EvidencePrecedesResolution(settings, events);
    SelectionIsBest(settings, events);
  }

  lemma {:induction false} HistoryPromises(settings: Settings, first: Event, actions: seq<Action>)
    requires Detection(first)
    ensures Promises(settings, History(settings, first, actions))
  {
    hide Invariant, Promises;
    HistoryInvariant(settings, first, actions);
    InvariantPromises(settings, History(settings, first, actions));
  }
}
