/** The recovery workflow as a function of its checkpoint.

    Every stage first re-reads the case from the log, so what happens next depends on the
    events so far and on what the external adapters answer. `Next` is that one step; `Run`
    repeats it the way one uninterrupted call does.
 */
module Recovery {
  import opened Model
  import opened StateMachine
  import opened Projection
  import Canonical
  import Policy
  import SqlSafety

  datatype Settings = Settings(
    replayMode: bool,
    postgresMode: bool,
    policy: Policy.Config,
    allowedAssets: set<string>,
    eventDigest: Canonical.NormalEvent -> string,
    sha256: string -> string)

  datatype ContextRead = ContextRead(
    integration: Integration,
    glossary: Option<string>,
    lineageCurrent: bool,
    detail: string)

  datatype Generation = Generation(candidates: seq<Proposal>, integration: Integration)

  datatype Report =
    | Refused(reasons: seq<Reason>)
    | Validated(selected: Assessment, patchSha256: string)
    | Recovered(commit: string, checks: seq<Check>)

  /** The external systems, as oracles: what each would answer if it were asked. */
  datatype Adapters = Adapters(
    raiseIncident: (string, string) -> Answer<Integration>,
    fetchContext: string -> Answer<ContextRead>,
    propose: (SchemaChange, Context) -> Answer<Generation>,
    execute: (string, Proposal, Context) -> Answer<Execution>,
    readModel: Answer<string>,
    writeReport: (string, string, Report) -> Answer<Integration>,
    createDraft: (string, Patch) -> Answer<PullRequest>)

  /** One delivery of a schema change to the workflow, with the answers it will get. */
  datatype Delivery = Delivery(caseId: string, change: SchemaChange, adapters: Adapters)

  const RESUMABLE := {DETECTED, CONTEXT_GATHERED, CANDIDATES_READY, VALIDATING, PATCH_READY}

  /** What is recorded when a stage raises. */
  const CRASH := Event(CaseFailed(None), Some(CaseState.FAILED))

  // ---- The decisions of each stage ----

  predicate Ready(settings: Settings, integration: Integration) {
    settings.replayMode || integration.status == SUCCEEDED
  }

  function NotReady(integration: Integration): Event {
    Event(CaseFailed(Some(integration)), Some(CaseState.FAILED))
  }

  predicate Complete(context: Context) {
    context.glossary.Some? && context.glossary.value != "" && context.lineageCurrent
  }

  function ContextFrom(settings: Settings, read: ContextRead): Context {
    if read.integration.status == SUCCEEDED then
      Context(read.glossary, read.lineageCurrent, DATAHUB_MCP, read.integration, read.detail)
    else if settings.replayMode then
      Context(Some("Recognized revenue is the net settled amount after processing fees."), true,
              REPLAY_FIXTURE, read.integration, "")
    else
      Context(None, false, UNAVAILABLE, read.integration, "")
  }

  function Concise(reasons: seq<Reason>): seq<Reason> {
    if reasons == [] then [NothingSatisfiesPolicy]
    else if |reasons| > 20 then reasons[..20]
    else reasons
  }

  function Contain(d: Delivery, reasons: seq<Reason>): Event {
    match d.adapters.writeReport(d.change.entityUrn, d.caseId, Refused(Concise(reasons)))
    case Raise => CRASH
    case Reply(writeback) => Event(CaseContained(Concise(reasons), writeback), Some(CONTAINED))
  }

  predicate DistinctIds(proposals: seq<Proposal>) {
    forall i, j :: 0 <= i < j < |proposals| ==> proposals[i].id != proposals[j].id
  }

  /** The latest assessment of an id. */
  function Assessed(candidates: seq<Assessment>, id: string): Option<Assessment> {
    if candidates == [] then None
    else if candidates[|candidates| - 1].id == id then Some(candidates[|candidates| - 1])
    else Assessed(candidates[..|candidates| - 1], id)
  }

  /** The assessments by id; a later one of the same id wins. */
  function ById(candidates: seq<Assessment>): (byId: map<string, Assessment>)
    ensures forall id :: id in byId <==> Assessed(candidates, id).Some?
    ensures forall id :: id in byId ==> Assessed(candidates, id) == Some(byId[id])
  {
    if candidates == [] then map[]
    else
      var last := candidates[|candidates| - 1];
      ById(candidates[..|candidates| - 1])[last.id := last]
  }

  /** The proposals with no assessment yet, in order. */
  function Pending(proposals: seq<Proposal>, candidates: seq<Assessment>): seq<Proposal> {
    if proposals == [] then []
    else
      (if Assessed(candidates, proposals[0].id).None? then [proposals[0]] else [])
      + Pending(proposals[1..], candidates)
  }

  function Assess(settings: Settings, d: Delivery, proposal: Proposal, context: Context): Assessment {
    var execution :=
      match d.adapters.execute(d.caseId, proposal, context)
      case Raise => Policy.FAILED_EXECUTION
      case Reply(execution) => execution;
    var decision := Policy.Evaluate(settings.policy, execution, context.lineageCurrent);
    Assessment(proposal.id, proposal.sourceField, execution, decision.checks, Policy.Outcome(decision), proposal.detail)
  }

  /** Failed checks as reasons, worded by whether this run found them or read them back. */
  function Worded(proposal: Proposal, names: seq<string>, now: bool): seq<Reason> {
    seq(|names|, i requires 0 <= i < |names| =>
      if now then FailedNow(proposal.sourceField, names[i]) else FailedEarlier(proposal.sourceField, names[i]))
  }

  /** The reasons a run has collected; `recent` holds the ids it assessed itself. */
  function Reasons(proposals: seq<Proposal>, candidates: seq<Assessment>, recent: set<string>): seq<Reason> {
    if proposals == [] then []
    else
      var last := proposals[|proposals| - 1];
      var found := Assessed(candidates, last.id);
      Reasons(proposals[..|proposals| - 1], candidates, recent)
      + if found.Some? then Worded(last, Policy.FailedNames(found.value.checks), last.id in recent) else []
  }

  /** The assessments that passed policy, in proposal order. */
  function Eligible(proposals: seq<Proposal>, candidates: seq<Assessment>): seq<Assessment> {
    if proposals == [] then []
    else
      var found := Assessed(candidates, proposals[|proposals| - 1].id);
      Eligible(proposals[..|proposals| - 1], candidates)
      + if found.Some? && found.value.outcome != REJECTED then [found.value] else []
  }

  /** The selection order: total variance, then row variance, then source field. */
  predicate RanksBefore(a: Assessment, b: Assessment) {
    var totalA, totalB := Policy.Abs(a.execution.metrics.totalVariance), Policy.Abs(b.execution.metrics.totalVariance);
    var rowsA, rowsB := Policy.Abs(a.execution.metrics.rowVariance), Policy.Abs(b.execution.metrics.rowVariance);
    if totalA != totalB then totalA < totalB
    else if rowsA != rowsB then rowsA < rowsB
    else a.sourceField != b.sourceField && Canonical.TextLe(a.sourceField, b.sourceField)
  }

  /** The first of the least. */
  function Best(eligible: seq<Assessment>): Assessment
    requires eligible != []
  {
    if |eligible| == 1 then eligible[0]
    else
      var best := Best(eligible[..|eligible| - 1]);
      if RanksBefore(eligible[|eligible| - 1], best) then eligible[|eligible| - 1] else best
  }

  function ProposalOf(proposals: seq<Proposal>, id: string): Option<Proposal> {
    if proposals == [] then None
    else if proposals[0].id == id then Some(proposals[0])
    else ProposalOf(proposals[1..], id)
  }

  // ---- The stages in order ----

  function RaiseIncident(d: Delivery): Event {
    match d.adapters.raiseIncident(d.change.entityUrn, d.caseId)
    case Raise => CRASH
    case Reply(incident) => Event(IncidentRaised(incident), Some(DETECTED))
  }

  function GatherContext(settings: Settings, d: Delivery): Event {
    match d.adapters.fetchContext(d.change.entityUrn)
    case Raise => CRASH
    case Reply(read) =>
      var context := ContextFrom(settings, read);
      if !Complete(context) then Contain(d, [ContextIncomplete])
      else Event(ContextGathered(context), Some(CONTEXT_GATHERED))
  }

  function Generate(settings: Settings, d: Delivery, context: Context): Event {
    match d.adapters.propose(d.change, context)
    case Raise => CRASH
    case Reply(generated) =>
      if !Ready(settings, generated.integration) then NotReady(generated.integration)
      else if generated.candidates == [] then Contain(d, [NoCompatibleCandidate])
      else Event(CandidatesReady(generated.candidates, generated.integration), Some(CANDIDATES_READY))
  }

  function SelectPatch(settings: Settings, d: Delivery, view: View, eligible: seq<Assessment>): Event
    requires eligible != []
  {
    var selected := Best(eligible).(outcome := SELECTED);
    match ProposalOf(view.proposals, selected.id)
    case None => CRASH
    case Some(proposal) =>
      match d.adapters.readModel
      case Raise => CRASH
      case Reply(model) =>
        match SqlSafety.RenderDbtPatch(proposal, model)
        case Raise => CRASH
        case Reply(content) =>
          Event(PatchReady(selected, Patch(content, settings.sha256(content))), Some(PATCH_READY))
  }

  function WriteEvidence(d: Delivery, selected: Assessment, patch: Patch): Event {
    match d.adapters.writeReport(d.change.entityUrn, d.caseId, Validated(selected, patch.sha256))
    case Raise => CRASH
    case Reply(writeback) => Event(EvidenceWritten(writeback), Some(PATCH_READY))
  }

  function CreatePullRequest(d: Delivery, patch: Patch): Event {
    match d.adapters.createDraft(d.caseId, patch)
    case Raise => CRASH
    case Reply(pr) =>
      if pr.integration.status == SUCCEEDED then Event(PrOpened(pr), Some(PR_OPEN))
      else Event(PrAttempted(pr), Some(PATCH_READY))
  }

  /** The stages from validation on, once there are proposals to work with. */
  function Validate(settings: Settings, d: Delivery, view: View, context: Context, recent: set<string>): Option<Event> {
    var pending := Pending(view.proposals, view.candidates);
    var eligible := Eligible(view.proposals, view.candidates);
    if view.state == CANDIDATES_READY then
      Some(Event(ValidationStarted(|view.proposals|), Some(VALIDATING)))
    else if pending != [] then
      Some(Event(CandidateAssessed(Assess(settings, d, pending[0], context)), Some(VALIDATING)))
    else if eligible == [] then
      Some(Contain(d, Reasons(view.proposals, view.candidates, recent)))
    else if view.selected.None? || view.patch.None? then
      Some(SelectPatch(settings, d, view, eligible))
    else if view.writeback.None? then
      Some(WriteEvidence(d, view.selected.value, view.patch.value))
    else if !Ready(settings, view.writeback.value) then
      Some(NotReady(view.writeback.value))
    else if view.pullRequest.Some? && view.pullRequest.value.integration.status == SUCCEEDED then
      if view.state == PATCH_READY then Some(Event(PrOpened(view.pullRequest.value), Some(PR_OPEN))) else None
    else
      Some(CreatePullRequest(d, view.patch.value))
  }

  function Decide(settings: Settings, d: Delivery, view: View, recent: set<string>): (event: Option<Event>)
    ensures event.Some? ==> event.value.state.Some?
  {
    if view.incident.None? then Some(RaiseIncident(d))
    else if !Ready(settings, view.incident.value) then Some(NotReady(view.incident.value))
    else if view.context.None? then Some(GatherContext(settings, d))
    else if !Complete(view.context.value) then Some(Contain(d, [PersistedContextIncomplete]))
    else if view.generation.None? || view.proposals == [] then Some(Generate(settings, d, view.context.value))
    else if !Ready(settings, view.generation.value) then Some(NotReady(view.generation.value))
    else if !DistinctIds(view.proposals) then Some(CRASH)
    else Validate(settings, d, view, view.context.value, recent)
  }

  /** An append that the state machine refuses raises, and a raise is recorded as FAILED. */
  function Checked(state: CaseState, event: Event): Event
    requires event.state.Some?
  {
    if ValidTransition(Some(state), event.state.value) then event else CRASH
  }

  /** The next event of a case, if any. */
  function Next(settings: Settings, d: Delivery, events: seq<Event>, recent: set<string>): (next: Option<Event>)
    requires Started(events)
    ensures next.Some? ==> next.value.state.Some?
  {
    var view := Fold(events);
    if view.state !in RESUMABLE then None
    else
      match Decide(settings, d, view, recent)
      case None => None
      case Some(event) => Some(Checked(view.state, event))
  }

  function RecentAfter(recent: set<string>, event: Event): set<string> {
    if event.body.CandidateAssessed? then recent + {event.body.assessment.id} else recent
  }

  /** One uninterrupted call: it steps until nothing is left to do or a PR attempt failed. */
  function Run(settings: Settings, d: Delivery, events: seq<Event>, recent: set<string>): (result: seq<Event>)
    requires Started(events)
    ensures Started(result) && events <= result
    decreases StagesLeft(Fold(events)), |Pending(Fold(events).proposals, Fold(events).candidates)|
  {
    match Next(settings, d, events, recent)
    case None => events
    case Some(event) =>
      FoldStep(events, event);
      if event.body.PrAttempted? then events + [event]
      else
        NextMakesProgress(settings, d, events, recent);
        Run(settings, d, events + [event], RecentAfter(recent, event))
  }

  // ---- Progress ----

  function Flag(b: bool): nat {
    if b then 1 else 0
  }

  /** How many stages a view still has ahead of it, not counting single assessments. */
  function StagesLeft(view: View): nat {
    if view.state !in RESUMABLE then 0
    else
      1 + Flag(view.incident.None?) + Flag(view.context.None?)
      + Flag(view.generation.None? || view.proposals == [])
      + Flag(view.state in {DETECTED, CONTEXT_GATHERED, CANDIDATES_READY})
      + Flag(view.selected.None? || view.patch.None?)
      + Flag(view.writeback.None?)
  }

  lemma {:induction false} AssessedIsLatest(candidates: seq<Assessment>, a: Assessment, id: string)
    ensures Assessed(candidates + [a], id) == if a.id == id then Some(a) else Assessed(candidates, id)
  {
    assert (candidates + [a])[..|candidates|] == candidates;
  }

  lemma {:induction false} AssessingShrinksPending(proposals: seq<Proposal>, candidates: seq<Assessment>, a: Assessment)
    ensures |Pending(proposals, candidates + [a])| <= |Pending(proposals, candidates)|
    ensures (exists p :: p in Pending(proposals, candidates) && p.id == a.id)
            ==> |Pending(proposals, candidates + [a])| < |Pending(proposals, candidates)|
  {
    if proposals != [] {
      AssessingShrinksPending(proposals[1..], candidates, a);
      AssessedIsLatest(candidates, a, proposals[0].id);
    }
  }

  /** The kinds of step there are: what each needs of the view, and what it records. */
  ghost predicate StepShape(view: View, event: Event) {
    && event.state.Some?
    && match event.body
       case IncidentRaised(_) => view.incident.None? && event.state.value == DETECTED
       case ContextGathered(_) => view.context.None? && event.state.value == CONTEXT_GATHERED
       case CandidatesReady(proposals, _) =>
         (view.generation.None? || view.proposals == []) && proposals != [] && event.state.value == CANDIDATES_READY
       case ValidationStarted(_) => view.state == CANDIDATES_READY && event.state.value == VALIDATING
       case CandidateAssessed(assessment) =>
         var pending := Pending(view.proposals, view.candidates);
         view.state != CANDIDATES_READY && pending != [] && pending[0].id == assessment.id
             && event.state.value == VALIDATING
       case PatchReady(_, _) => (view.selected.None? || view.patch.None?) && event.state.value == PATCH_READY
       case EvidenceWritten(_) => view.writeback.None? && event.state.value == PATCH_READY
       case PrAttempted(_) => event.state.value == PATCH_READY
       case PrOpened(_) => event.state.value == PR_OPEN
       case CaseContained(_, _) => event.state.value == CONTAINED
       case CaseFailed(_) => event.state.value == CaseState.FAILED
       case _ => false
  }

  lemma {:induction false} ContainShape(d: Delivery, reasons: seq<Reason>, view: View)
    ensures StepShape(view, Contain(d, reasons))
    ensures Contain(d, reasons).body.CaseContained? || Contain(d, reasons) == CRASH
  {
  }

  lemma {:induction false} ValidateShape(settings: Settings, d: Delivery, view: View, context: Context,
        recent: set<string>)
    requires Validate(settings, d, view, context, recent).Some?
    ensures StepShape(view, Validate(settings, d, view, context, recent).value)
  {
    hide Pending, Eligible, Reasons, Assess, SelectPatch, WriteEvidence, CreatePullRequest, Contain;
    var pending := Pending(view.proposals, view.candidates);
    var eligible := Eligible(view.proposals, view.candidates);
    if view.state == CANDIDATES_READY {
    } else if pending != [] {
      AssessNames(settings, d, pending[0], context);
    } else if eligible == [] {
      ContainShape(d, Reasons(view.proposals, view.candidates, recent), view);
    } else if view.selected.None? || view.patch.None? {
      SelectShape(settings, d, view, eligible);
    } else {
      ShipShape(d, view);
    }
  }

  lemma {:induction false} AssessNames(settings: Settings, d: Delivery, proposal: Proposal, context: Context)
    ensures Assess(settings, d, proposal, context).id == proposal.id
  {
  }

  lemma {:induction false} SelectShape(settings: Settings, d: Delivery, view: View, eligible: seq<Assessment>)
    requires eligible != [] && (view.selected.None? || view.patch.None?)
    ensures StepShape(view, SelectPatch(settings, d, view, eligible))
  {
    hide Best, Pending, SqlSafety.RenderDbtPatch;
  }

  lemma {:induction false} ShipShape(d: Delivery, view: View)
    requires view.selected.Some? && view.patch.Some?
    ensures view.writeback.None? ==> StepShape(view, WriteEvidence(d, view.selected.value, view.patch.value))
    ensures StepShape(view, CreatePullRequest(d, view.patch.value))
  {
    hide Pending;
  }

  lemma {:induction false} DecideShape(settings: Settings, d: Delivery, view: View, recent: set<string>)
    requires Decide(settings, d, view, recent).Some?
    ensures StepShape(view, Decide(settings, d, view, recent).value)
  {
    if view.incident.None? || !Ready(settings, view.incident.value) {
    } else if view.context.None? {
      ContainShape(d, [ContextIncomplete], view);
    } else if !Complete(view.context.value) {
      ContainShape(d, [PersistedContextIncomplete], view);
    } else if view.generation.None? || view.proposals == [] {
      ContainShape(d, [NoCompatibleCandidate], view);
    } else if Ready(settings, view.generation.value) && DistinctIds(view.proposals) {
      ValidateShape(settings, d, view, view.context.value, recent);
    }
  }

  lemma {:induction false} ShapeMakesProgress(view: View, event: Event)
    requires view.state in RESUMABLE && StepShape(view, event) && ValidTransition(Some(view.state), event.state.value)
    requires !event.body.PrAttempted?
    ensures var after := Apply(view, event);
            || StagesLeft(after) < StagesLeft(view)
            || (StagesLeft(after) == StagesLeft(view)
                && |Pending(after.proposals, after.candidates)| < |Pending(view.proposals, view.candidates)|)
  {
    var after := Apply(view, event);
    if event.state.value !in RESUMABLE {
      assert StagesLeft(after) == 0;
    } else if event.body.CandidateAssessed? {
      AssessingShrinksPending(view.proposals, view.candidates, event.body.assessment);
      assert Pending(view.proposals, view.candidates)[0] in Pending(view.proposals, view.candidates);
      assert view.state != DETECTED && view.state != CONTEXT_GATHERED;
      assert after == view.(state := VALIDATING, candidates := view.candidates + [event.body.assessment]);
      assert StagesLeft(after) == StagesLeft(view);
    } else {
      StageFinished(view, event);
    }
  }

  lemma {:induction false} StageFinished(view: View, event: Event)
    requires view.state in RESUMABLE && StepShape(view, event) && ValidTransition(Some(view.state), event.state.value)
    requires !event.body.PrAttempted? && !event.body.CandidateAssessed? && event.state.value in RESUMABLE
    ensures StagesLeft(Apply(view, event)) < StagesLeft(view)
  {
    ApplyFields(view, event);
    hide Pending, ReplaceAssessment, Apply;
    var after := Apply(view, event);
    assert (event.state.value in {DETECTED, CONTEXT_GATHERED, CANDIDATES_READY})
           ==> (view.state in {DETECTED, CONTEXT_GATHERED, CANDIDATES_READY});
    match event.body
    case IncidentRaised(_) => assert after.context == view.context;
    case ContextGathered(_) => assert after.context.Some?;
    case CandidatesReady(_, _) => assert after.generation.Some?;
    case ValidationStarted(_) => assert after.context == view.context && after.generation == view.generation;
    case PatchReady(_, _) => assert after.selected.Some? && after.patch.Some?;
    case EvidenceWritten(_) => assert after.writeback.Some?;
    case _ =>
  }

  /** Each step either finishes a stage or assesses one more proposal. */
  lemma {:induction false} NextMakesProgress(settings: Settings, d: Delivery, events: seq<Event>, recent: set<string>)
    requires Started(events) && Next(settings, d, events, recent).Some?
    requires !Next(settings, d, events, recent).value.body.PrAttempted?
    ensures var before := Fold(events);
            var after := Apply(before, Next(settings, d, events, recent).value);
            || StagesLeft(after) < StagesLeft(before)
            || (StagesLeft(after) == StagesLeft(before)
                && |Pending(after.proposals, after.candidates)| < |Pending(before.proposals, before.candidates)|)
  {
    var view := Fold(events);
    DecideShape(settings, d, view, recent);
    assert ValidTransition(Some(view.state), CaseState.FAILED);
    ShapeMakesProgress(view, Next(settings, d, events, recent).value);
  }

  // ---- Runs as sequences of steps ----

  /** The proposals assessed by the events from one position of a log up to another. */
  ghost function AssessedSince(events: seq<Event>, from: nat, to: nat): set<string>
    requires to <= |events|
  {
    set i | from <= i < to && events[i].body.CandidateAssessed? :: events[i].body.assessment.id
  }

  /** At every proper prefix of a run the next event is the one step decided there, by a run
      that remembers what it has assessed itself. */
  lemma {:induction false} RunPrefix(settings: Settings, d: Delivery, events: seq<Event>, recent: set<string>, n: nat)
    returns (middle: set<string>)
    requires Started(events) && |events| <= n < |Run(settings, d, events, recent)|
    ensures var run := Run(settings, d, events, recent);
            && Started(run[..n])
            && Next(settings, d, run[..n], middle) == Some(run[n])
            && run == Run(settings, d, run[..n], middle)
            && middle == recent + AssessedSince(run, |events|, n)
            && (n > |events| ==> !run[n - 1].body.PrAttempted?)
    decreases StagesLeft(Fold(events)), |Pending(Fold(events).proposals, Fold(events).candidates)|
  {
    hide Decide, Apply, Checked;
    var run := Run(settings, d, events, recent);
    var event := Next(settings, d, events, recent).value;
    FoldStep(events, event);
    var longer := events + [event];
    assert longer <= run;
    if n == |events| {
      middle := recent;
      assert run[..n] == events && run[n] == event;
    } else {
      NextMakesProgress(settings, d, events, recent);
      middle := RunPrefix(settings, d, longer, RecentAfter(recent, event), n);
      assert run[..n][|events|] == event;
      assert RecentAfter(recent, event) == recent + AssessedSince(run, |events|, |events| + 1);
    }
  }
}
