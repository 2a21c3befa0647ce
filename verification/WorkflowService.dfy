/** The resumable driver: it advances a case stage by stage over the event store. */
module WorkflowService {
  import opened Model
  import opened StateMachine
  import opened Log
  import opened Projection
  import opened Store
  import opened Recovery
  import opened CaseIdentity
  import CaseLogs
  import IngestRace
  import Deployment
  import Policy
  import SqlSafety
  import opened AdvanceSteps
  import opened Allocation
  import AdvanceMeaning
  import CaseHistory
  import IngestMeaning

  class WorkflowService {
    const settings: Settings
    const store: EventStore
    var activeCases: set<string>
    var settledCases: set<string>

    constructor (settings: Settings, store: EventStore)
      ensures this.settings == settings && this.store == store
      ensures activeCases == {} && settledCases == {}
    {
      this.settings := settings;
      this.store := store;
      activeCases := {};
      settledCases := {};
    }

    ghost predicate Valid()
      reads store
    {
      ValidLog(store.rows)
    }

    ghost function Stream(caseId: string): seq<Event>
      reads store
    {
      CaseStream(store.rows, caseId)
    }

    /** Append one event of a case that already has a stream; false when the transition is refused. */
    method Record(caseId: string, body: Body, state: CaseState) returns (ok: bool)
      requires Valid() && Started(Stream(caseId)) && !body.SystemReset? && !body.SchemaChangeDetected?
      modifies store
      ensures Valid()
      ensures ok <==> ValidTransition(Some(Fold(old(Stream(caseId))).state), state)
      ensures Grew(old(store.rows), store.rows, caseId)
      ensures ok ==> Stream(caseId) == old(Stream(caseId)) + [Event(body, Some(state))]
      ensures ok ==> Started(Stream(caseId))
                     && Fold(Stream(caseId)) == Apply(Fold(old(Stream(caseId))), Event(body, Some(state)))
      ensures !ok ==> store.rows == old(store.rows)
    {
      var req := Log.Request(caseId, body, state, None, None);
      var now: int := *;
      ProjectedStateIsCurrent(store.rows, caseId);
      FreshIdIsFresh(store.rows, CurrentScope(store.rows));
      var outcome := store.Append(req, now);
      ok := outcome.Appended?;
      if ok {
        AppendExtends(old(store.rows), req, now);
        FoldStep(old(Stream(caseId)), Event(body, Some(state)));
      }
      ExtendedGrew(old(store.rows), store.rows, caseId, if ok then [Event(body, Some(state))] else []);
    }

    /** Re-read the case. */
    method GetCase(caseId: string) returns (view: View)
      requires Started(Stream(caseId))
      ensures view == Fold(Stream(caseId))
    {
      var snapshot := store.GetCase(caseId);
      view := snapshot.value.view;
    }

    /** Write the refusal report and record the containment. */
    method Contain(d: Delivery, reasons: seq<Reason>) returns (progress: Progress)
      requires Valid() && Started(Stream(d.caseId)) && Fold(Stream(d.caseId)).state in RESUMABLE
      modifies store
      ensures Valid() && Grew(old(store.rows), store.rows, d.caseId)
      ensures progress != Continue
      ensures Ended(progress, Stream(d.caseId)) == old(Stream(d.caseId)) + [Recovery.Contain(d, reasons)]
    {
      GrewReflexive(store.rows, d.caseId);
      var concise := Concise(reasons);
      match d.adapters.writeReport(d.change.entityUrn, d.caseId, Refused(concise))
      case Raise =>
        return Raised;
      case Reply(writeback) =>
        var ok := Record(d.caseId, CaseContained(concise, writeback), CONTAINED);
        return Done;
    }

    /** In connected mode an integration that did not succeed fails the case. */
    method ConnectedIntegrationReady(caseId: string, integration: Integration) returns (ready: bool)
      requires Valid() && Started(Stream(caseId)) && Fold(Stream(caseId)).state in RESUMABLE
      modifies store
      ensures Valid() && Grew(old(store.rows), store.rows, caseId)
      ensures ready <==> Ready(settings, integration)
      ensures ready ==> store.rows == old(store.rows)
      ensures !ready ==> Stream(caseId) == old(Stream(caseId)) + [NotReady(integration)]
    {
      GrewReflexive(store.rows, caseId);
      if settings.replayMode || integration.status == SUCCEEDED {
        return true;
      }
      var ok := Record(caseId, CaseFailed(Some(integration)), CaseState.FAILED);
      return false;
    }

    /** The incident: raised once, then read back. */
    method EnsureIncident(d: Delivery) returns (progress: Progress)
      requires Valid() && Started(Stream(d.caseId)) && Fold(Stream(d.caseId)).state in RESUMABLE
      modifies store
      ensures Valid() && Grew(old(store.rows), store.rows, d.caseId) && Started(Stream(d.caseId))
      ensures progress != Continue ==>
        Run(settings, d, old(Stream(d.caseId)), {}) == Ended(progress, Stream(d.caseId))
      ensures progress == Continue ==>
        && Run(settings, d, old(Stream(d.caseId)), {}) == Run(settings, d, Stream(d.caseId), {})
        && var view := Fold(Stream(d.caseId));
           view.state in RESUMABLE && view.incident.Some? && Ready(settings, view.incident.value)
    {
      hide Run, Decide, Decides, Fold, GatherContext, Generate, Complete, DistinctIds, Validate, Grew, ValidLog,
        CaseStream, Apply;
      GrewReflexive(store.rows, d.caseId);
      DecidesInOrder(settings, d, Stream(d.caseId), {});
      var view := GetCase(d.caseId);
      var incident := view.incident;
      if incident.None? {
        StepUnrolls(settings, d, Stream(d.caseId), {}, RaiseIncident(d));
        match d.adapters.raiseIncident(d.change.entityUrn, d.caseId)
        case Raise =>
          FinalUnrolls(settings, d, Stream(d.caseId), {}, CRASH);
          return Raised;
        case Reply(raised) =>
          var ok := Record(d.caseId, IncidentRaised(raised), DETECTED);
          if !ok {
            return Raised;
          }
          ApplyFields(view, Event(IncidentRaised(raised), Some(DETECTED)));
          incident := Some(raised);
      }
      ghost var middle := store.rows;
      DecidesInOrder(settings, d, Stream(d.caseId), {});
      var ready := ConnectedIntegrationReady(d.caseId, incident.value);
      GrewTransitive(old(store.rows), middle, store.rows, d.caseId);
      if !ready {
        FinalUnrolls(settings, d, CaseStream(middle, d.caseId), {}, NotReady(incident.value));
        return Done;
      }
      return Continue;
    }

    /** The semantic context: fetched once; a case without it is contained. */
    method EnsureContext(d: Delivery) returns (progress: Progress, context: Option<Context>)
      requires Valid() && Started(Stream(d.caseId))
      requires var view := Fold(Stream(d.caseId));
               view.state in RESUMABLE && view.incident.Some? && Ready(settings, view.incident.value)
      modifies store
      ensures Valid() && Grew(old(store.rows), store.rows, d.caseId) && Started(Stream(d.caseId))
      ensures progress != Continue ==>
        Run(settings, d, old(Stream(d.caseId)), {}) == Ended(progress, Stream(d.caseId))
      ensures progress == Continue ==>
        && Run(settings, d, old(Stream(d.caseId)), {}) == Run(settings, d, Stream(d.caseId), {})
        && context.Some?
        && var view := Fold(Stream(d.caseId));
           && view.state in RESUMABLE && view.incident.Some? && Ready(settings, view.incident.value)
           && view.context == context && Complete(context.value)
    {
      hide Run, Decide, Grew, ValidLog, CaseStream, Apply, ContextFrom;
      GrewReflexive(store.rows, d.caseId);
      DecidesInOrder(settings, d, Stream(d.caseId), {});
      ghost var start := Stream(d.caseId);
      var view := GetCase(d.caseId);
      context := view.context;
      if context.None? {
        StepUnrolls(settings, d, start, {}, GatherContext(settings, d));
        match d.adapters.fetchContext(d.change.entityUrn)
        case Raise =>
          FinalUnrolls(settings, d, start, {}, CRASH);
          return Raised, None;
        case Reply(read) =>
          var fetched := ContextFrom(settings, read);
          if !Complete(fetched) {
            ContainUnrolls(settings, d, start, {}, [ContextIncomplete]);
            progress := Contain(d, [ContextIncomplete]);
            return;
          }
          var ok := Record(d.caseId, ContextGathered(fetched), CONTEXT_GATHERED);
          if !ok {
            return Raised, None;
          }
          ApplyFields(view, Event(ContextGathered(fetched), Some(CONTEXT_GATHERED)));
          return Continue, Some(fetched);
      } else if !Complete(context.value) {
        ContainUnrolls(settings, d, start, {}, [PersistedContextIncomplete]);
        progress := Contain(d, [PersistedContextIncomplete]);
        return;
      }
      return Continue, context;
    }

    /** The candidate proposals: generated once; they must be there and have distinct ids. */
    method EnsureProposals(d: Delivery, context: Context) returns (progress: Progress, proposals: seq<Proposal>)
      requires Valid() && Started(Stream(d.caseId))
      requires var view := Fold(Stream(d.caseId));
               && view.state in RESUMABLE && view.incident.Some? && Ready(settings, view.incident.value)
               && view.context == Some(context) && Complete(context)
      modifies store
      ensures Valid() && Grew(old(store.rows), store.rows, d.caseId) && Started(Stream(d.caseId))
      ensures progress != Continue ==>
        Run(settings, d, old(Stream(d.caseId)), {}) == Ended(progress, Stream(d.caseId))
      ensures progress == Continue ==>
        && Run(settings, d, old(Stream(d.caseId)), {}) == Run(settings, d, Stream(d.caseId), {})
        && InputsReady(settings, Fold(Stream(d.caseId)), context, proposals)
    {
      hide Run, Decide, Decides, Fold, RaiseIncident, GatherContext, Validate, Grew, ValidLog, CaseStream, Apply;
      GrewReflexive(store.rows, d.caseId);
      ghost var start := Stream(d.caseId);
      DecidesInOrder(settings, d, start, {});
      var view := GetCase(d.caseId);
      proposals := view.proposals;
      if view.generation.None? || proposals == [] {
        StepUnrolls(settings, d, start, {}, Generate(settings, d, context));
        match d.adapters.propose(d.change, context)
        case Raise =>
          FinalUnrolls(settings, d, start, {}, CRASH);
          return Raised, [];
        case Reply(generated) =>
          var ready := ConnectedIntegrationReady(d.caseId, generated.integration);
          if !ready {
            FinalUnrolls(settings, d, start, {}, NotReady(generated.integration));
            return Done, [];
          }
          if generated.candidates == [] {
            ContainUnrolls(settings, d, start, {}, [NoCompatibleCandidate]);
            progress := Contain(d, [NoCompatibleCandidate]);
            return;
          }
          proposals := generated.candidates;
          var ok := Record(d.caseId, CandidatesReady(proposals, generated.integration), CANDIDATES_READY);
          if !ok {
            return Raised, [];
          }
          ApplyFields(view, Event(CandidatesReady(proposals, generated.integration), Some(CANDIDATES_READY)));
      } else {
        var ready := ConnectedIntegrationReady(d.caseId, view.generation.value);
        if !ready {
          FinalUnrolls(settings, d, start, {}, NotReady(view.generation.value));
          return Done, [];
        }
      }
      if !DistinctIds(proposals) {
        DecidesInOrder(settings, d, Stream(d.caseId), {});
        FinalUnrolls(settings, d, Stream(d.caseId), {}, CRASH);
        return Raised, [];
      }
      return Continue, proposals;
    }

    /** Start validation if it has not started. */
    method StartValidation(d: Delivery, context: Context, proposals: seq<Proposal>) returns (progress: Progress)
      requires Valid() && Started(Stream(d.caseId))
      requires InputsReady(settings, Fold(Stream(d.caseId)), context, proposals)
      modifies store
      ensures Valid() && Grew(old(store.rows), store.rows, d.caseId) && Started(Stream(d.caseId))
      ensures progress != Continue ==>
        Run(settings, d, old(Stream(d.caseId)), {}) == Ended(progress, Stream(d.caseId))
      ensures progress == Continue ==>
        && Run(settings, d, old(Stream(d.caseId)), {}) == Run(settings, d, Stream(d.caseId), {})
        && InputsReady(settings, Fold(Stream(d.caseId)), context, proposals)
        && Fold(Stream(d.caseId)).state != CANDIDATES_READY
    {
      hide Run, Decide, Validate, Grew, ValidLog, CaseStream, Apply;
      GrewReflexive(store.rows, d.caseId);
      var view := GetCase(d.caseId);
      if view.state == CANDIDATES_READY {
        DecidesInOrder(settings, d, Stream(d.caseId), {});
        ValidatesInOrder(settings, d, view, context, {});
        StepUnrolls(settings, d, Stream(d.caseId), {}, Event(ValidationStarted(|proposals|), Some(VALIDATING)));
        var ok := Record(d.caseId, ValidationStarted(|proposals|), VALIDATING);
        if !ok {
          return Raised;
        }
        ApplyFields(view, Event(ValidationStarted(|proposals|), Some(VALIDATING)));
      }
      return Continue;
    }

    /** Run, judge and record one candidate; a run that raises counts as a failed one. */
    method AssessOne(d: Delivery, context: Context, proposals: seq<Proposal>, i: nat, ghost recent: set<string>)
      returns (progress: Progress, assessment: Assessment)
      requires Valid() && Started(Stream(d.caseId)) && i < |proposals|
      requires var view := Fold(Stream(d.caseId));
               && InputsReady(settings, view, context, proposals) && view.state != CANDIDATES_READY
               && (forall j :: 0 <= j < i ==> Assessed(view.candidates, proposals[j].id).Some?)
               && Assessed(view.candidates, proposals[i].id).None?
      modifies store
      ensures Valid() && Grew(old(store.rows), store.rows, d.caseId) && Started(Stream(d.caseId))
      ensures assessment == Assess(settings, d, proposals[i], context) && assessment.id == proposals[i].id
      ensures progress != Done
      ensures progress == Raised ==>
        Run(settings, d, old(Stream(d.caseId)), recent) == Ended(progress, Stream(d.caseId))
      ensures progress == Continue ==>
        var view := Fold(Stream(d.caseId));
        && Run(settings, d, old(Stream(d.caseId)), recent)
           == Run(settings, d, Stream(d.caseId), recent + {assessment.id})
        && InputsReady(settings, view, context, proposals) && view.state != CANDIDATES_READY
        && view.candidates == Fold(old(Stream(d.caseId))).candidates + [assessment]
    {
      var proposal := proposals[i];
      var execution: Execution;
      match d.adapters.execute(d.caseId, proposal, context) {
        case Raise => execution := Policy.FAILED_EXECUTION;
        case Reply(answered) => execution := answered;
      }
      var decision := Policy.Evaluate(settings.policy, execution, context.lineageCurrent);
      assessment := Assessment(proposal.id, proposal.sourceField, execution, decision.checks,
                               Policy.Outcome(decision), proposal.detail);
      assert assessment == Assess(settings, d, proposal, context);
      hide Run, Decides, Grew, ValidLog, CaseStream, Apply, Assess, Fold, Assessed, InputsReady, Policy.Evaluate,
        Policy.Outcome;
      ghost var start := Stream(d.caseId);
      ghost var event := Event(CandidateAssessed(assessment), Some(VALIDATING));
      DecidesToAssess(settings, d, start, context, proposals, i, recent);
      AssessmentKeepsInputs(settings, Fold(start), context, proposals, assessment);
      StepUnrolls(settings, d, start, recent, event);
      var ok := Record(d.caseId, CandidateAssessed(assessment), VALIDATING);
      if !ok {
        return Raised, assessment;
      }
      return Continue, assessment;
    }

    /** Those of the proposals' assessments that passed policy. */
    method EligibleOf(proposals: seq<Proposal>, assessmentsById: map<string, Assessment>,
          ghost candidates: seq<Assessment>)
      returns (eligible: seq<Assessment>)
      requires IndexOf(assessmentsById, candidates)
      requires forall p :: p in proposals ==> p.id in assessmentsById
      ensures eligible == Eligible(proposals, candidates)
    {
      eligible := [];
      for i := 0 to |proposals|
        invariant eligible == Eligible(proposals[..i], candidates)
      {
        EligibleStep(proposals, i, candidates);
        var item := assessmentsById[proposals[i].id];
        if item.outcome == ELIGIBLE || item.outcome == SELECTED {
          eligible := eligible + [item];
        }
      }
      assert proposals[..|proposals|] == proposals;
    }

    /** Assess what no earlier run assessed; without an eligible candidate the case is contained. */
    method AssessCandidates(d: Delivery, context: Context, proposals: seq<Proposal>)
      returns (progress: Progress, eligible: seq<Assessment>, ghost recent: set<string>)
      requires Valid() && Started(Stream(d.caseId))
      requires InputsReady(settings, Fold(Stream(d.caseId)), context, proposals)
      requires Fold(Stream(d.caseId)).state != CANDIDATES_READY
      modifies store
      ensures Valid() && Grew(old(store.rows), store.rows, d.caseId) && Started(Stream(d.caseId))
      ensures progress != Continue ==>
        Run(settings, d, old(Stream(d.caseId)), {}) == Ended(progress, Stream(d.caseId))
      ensures progress == Continue ==>
        var view := Fold(Stream(d.caseId));
        && Run(settings, d, old(Stream(d.caseId)), {}) == Run(settings, d, Stream(d.caseId), recent)
        && InputsReady(settings, view, context, proposals) && view.state != CANDIDATES_READY
        && Pending(proposals, view.candidates) == []
        && eligible == Eligible(proposals, view.candidates) != []
    {
      hide Run, Decide, Validate, Grew, ValidLog, CaseStream, Apply, Assess, Fold, Worded, Tracked;
      GrewReflexive(store.rows, d.caseId);
      recent := {};
      ghost var start := Stream(d.caseId);
      ghost var began := store.rows;
      var view := GetCase(d.caseId);
      var assessmentsById := ById(view.candidates);
      var rejectionReasons: seq<Reason> := [];
      TrackingStarts(settings, view, context, proposals);
      for i := 0 to |proposals|
        invariant Valid() && Grew(began, store.rows, d.caseId) && Started(Stream(d.caseId))
        invariant Run(settings, d, start, {}) == Run(settings, d, Stream(d.caseId), recent)
        invariant Tracked(settings, Fold(Stream(d.caseId)), context, proposals, i, recent, assessmentsById,
            rejectionReasons)
      {
        var proposal := proposals[i];
        ghost var before := Fold(Stream(d.caseId));
        if proposal.id in assessmentsById {
          TrackExisting(settings, before, context, proposals, i, recent, assessmentsById, rejectionReasons);
          var existing := assessmentsById[proposal.id];
          rejectionReasons := rejectionReasons + Worded(proposal, Policy.FailedNames(existing.checks), false);
          continue;
        }
        TrackMissing(settings, before, context, proposals, i, recent, assessmentsById, rejectionReasons);
        ghost var middle := store.rows;
        var assessment: Assessment;
        progress, assessment := AssessOne(d, context, proposals, i, recent);
        GrewTransitive(began, middle, store.rows, d.caseId);
        if progress == Raised {
          return Raised, [], recent;
        }
        TrackNew(settings, before, Fold(Stream(d.caseId)), context, proposals, i, recent, assessmentsById,
            rejectionReasons, assessment);
        assessmentsById := assessmentsById[assessment.id := assessment];
        rejectionReasons := rejectionReasons + Worded(proposal, Policy.FailedNames(assessment.checks), true);
        recent := recent + {assessment.id};
      }
      ghost var after := Fold(Stream(d.caseId));
      TrackingEnds(settings, after, context, proposals, recent, assessmentsById, rejectionReasons);
      eligible := EligibleOf(proposals, assessmentsById, after.candidates);
      if eligible == [] {
        DecidesInOrder(settings, d, Stream(d.caseId), recent);
        ValidatesInOrder(settings, d, after, context, recent);
        ContainUnrolls(settings, d, Stream(d.caseId), recent, rejectionReasons);
        ghost var middle := store.rows;
        progress := Contain(d, rejectionReasons);
        GrewTransitive(began, middle, store.rows, d.caseId);
        return;
      }
      progress := Continue;
    }

    /** Select the best eligible candidate and render its patch, once. */
    method EnsurePatch(d: Delivery, context: Context, proposals: seq<Proposal>, eligible: seq<Assessment>,
          ghost recent: set<string>)
      returns (progress: Progress)
      requires Valid() && Started(Stream(d.caseId))
      requires AllAssessed(settings, Fold(Stream(d.caseId)), context, proposals)
      requires eligible == Eligible(proposals, Fold(Stream(d.caseId)).candidates)
      modifies store
      ensures Valid() && Grew(old(store.rows), store.rows, d.caseId) && Started(Stream(d.caseId))
      ensures progress != Continue ==>
        Run(settings, d, old(Stream(d.caseId)), recent) == Ended(progress, Stream(d.caseId))
      ensures progress == Continue ==>
        var view := Fold(Stream(d.caseId));
        && Run(settings, d, old(Stream(d.caseId)), recent) == Run(settings, d, Stream(d.caseId), recent)
        && AllAssessed(settings, view, context, proposals)
        && view.selected.Some? && view.patch.Some?
    {
      hide Run, Decide, Validate, Grew, ValidLog, CaseStream, Apply, AllAssessed, Best;
      GrewReflexive(store.rows, d.caseId);
      ghost var start := Stream(d.caseId);
      var view := GetCase(d.caseId);
      if view.selected.None? || view.patch.None? {
        AllAssessedMeans(settings, view, context, proposals);
        DecidesToShip(settings, d, start, context, proposals, recent);
        StepUnrolls(settings, d, start, recent, SelectPatch(settings, d, view, eligible));
        var selected := Best(eligible).(outcome := SELECTED);
        var proposal := ProposalOf(proposals, selected.id);
        if proposal.None? || d.adapters.readModel.Raise? {
          FinalUnrolls(settings, d, start, recent, CRASH);
          return Raised;
        }
        var content := SqlSafety.RenderDbtPatch(proposal.value, d.adapters.readModel.value);
        if content.Raise? {
          FinalUnrolls(settings, d, start, recent, CRASH);
          return Raised;
        }
        var patch := Patch(content.value, settings.sha256(content.value));
        var ok := Record(d.caseId, PatchReady(selected, patch), PATCH_READY);
        if !ok {
          return Raised;
        }
        PatchKeepsAssessed(settings, view, context, proposals, selected, patch);
      }
      return Continue;
    }

    /** Write the evidence report, once. */
    method EnsureWriteback(d: Delivery, context: Context, proposals: seq<Proposal>, ghost recent: set<string>)
      returns (progress: Progress)
      requires Valid() && Started(Stream(d.caseId))
      requires var view := Fold(Stream(d.caseId));
               AllAssessed(settings, view, context, proposals) && view.selected.Some? && view.patch.Some?
      modifies store
      ensures Valid() && Grew(old(store.rows), store.rows, d.caseId) && Started(Stream(d.caseId))
      ensures progress != Continue ==>
        Run(settings, d, old(Stream(d.caseId)), recent) == Ended(progress, Stream(d.caseId))
      ensures progress == Continue ==>
        var view := Fold(Stream(d.caseId));
        && Run(settings, d, old(Stream(d.caseId)), recent) == Run(settings, d, Stream(d.caseId), recent)
        && AllAssessed(settings, view, context, proposals) && view.selected.Some? && view.patch.Some?
        && view.writeback.Some?
    {
      hide Run, Decide, Validate, Grew, ValidLog, CaseStream, Apply, AllAssessed;
      GrewReflexive(store.rows, d.caseId);
      ghost var start := Stream(d.caseId);
      var view := GetCase(d.caseId);
      if view.writeback.None? {
        DecidesToShip(settings, d, start, context, proposals, recent);
        AllAssessedMeans(settings, view, context, proposals);
        StepUnrolls(settings, d, start, recent, WriteEvidence(d, view.selected.value, view.patch.value));
        match d.adapters.writeReport(d.change.entityUrn, d.caseId,
            Validated(view.selected.value, view.patch.value.sha256))
        case Raise =>
          FinalUnrolls(settings, d, start, recent, CRASH);
          return Raised;
        case Reply(written) =>
          var ok := Record(d.caseId, EvidenceWritten(written), PATCH_READY);
          if !ok {
            return Raised;
          }
          WritebackKeepsAssessed(settings, view, context, proposals, written);
      }
      return Continue;
    }

    /** In connected mode the evidence must have been written. */
    method CheckWriteback(d: Delivery, context: Context, proposals: seq<Proposal>, ghost recent: set<string>)
      returns (progress: Progress)
      requires Valid() && Started(Stream(d.caseId))
      requires var view := Fold(Stream(d.caseId));
        && AllAssessed(settings, view, context, proposals) && view.selected.Some? && view.patch.Some?
        && view.writeback.Some?
      modifies store
      ensures Valid() && Grew(old(store.rows), store.rows, d.caseId) && Started(Stream(d.caseId))
      ensures progress != Continue ==>
        Run(settings, d, old(Stream(d.caseId)), recent) == Ended(progress, Stream(d.caseId))
      ensures progress == Continue ==>
        store.rows == old(store.rows) && Ready(settings, Fold(Stream(d.caseId)).writeback.value)
    {
      hide Run, Decide, Validate, Grew, ValidLog, CaseStream, Apply, AllAssessed;
      ghost var start := Stream(d.caseId);
      var view := GetCase(d.caseId);
      AllAssessedMeans(settings, view, context, proposals);
      DecidesToShip(settings, d, start, context, proposals, recent);
      var ready := ConnectedIntegrationReady(d.caseId, view.writeback.value);
      if !ready {
        FinalUnrolls(settings, d, start, recent, NotReady(view.writeback.value));
        return Done;
      }
      return Continue;
    }

    /** Open the draft, or record the attempt. */
    method Publish(d: Delivery, context: Context, proposals: seq<Proposal>, ghost recent: set<string>)
      returns (progress: Progress)
      requires Valid() && Started(Stream(d.caseId))
      requires var view := Fold(Stream(d.caseId));
        && AllAssessed(settings, view, context, proposals) && view.selected.Some? && view.patch.Some?
        && view.writeback.Some? && Ready(settings, view.writeback.value)
      modifies store
      ensures Valid() && Grew(old(store.rows), store.rows, d.caseId)
      ensures progress != Continue
      ensures Run(settings, d, old(Stream(d.caseId)), recent) == Ended(progress, Stream(d.caseId))
    {
      hide Run, Decide, Decides, Fold, Validate, Eligible, Pending, Best, DistinctIds, Grew, ValidLog, CaseStream,
        Apply, AllAssessed;
      GrewReflexive(store.rows, d.caseId);
      ghost var start := Stream(d.caseId);
      var view := GetCase(d.caseId);
      AllAssessedMeans(settings, view, context, proposals);
      DecidesToShip(settings, d, start, context, proposals, recent);
      var pullRequest := view.pullRequest;
      if pullRequest.Some? && pullRequest.value.integration.status == SUCCEEDED {
        if view.state == PATCH_READY {
          FinalUnrolls(settings, d, start, recent, Event(PrOpened(pullRequest.value), Some(PR_OPEN)));
          var ok := Record(d.caseId, PrOpened(pullRequest.value), PR_OPEN);
        } else {
          EndUnrolls(settings, d, start, recent);
        }
        return Done;
      }
      StepUnrolls(settings, d, start, recent, CreatePullRequest(d, view.patch.value));
      match d.adapters.createDraft(d.caseId, view.patch.value)
      case Raise =>
        FinalUnrolls(settings, d, start, recent, CRASH);
        return Raised;
      case Reply(created) =>
        if created.integration.status == SUCCEEDED {
          var ok := Record(d.caseId, PrOpened(created), PR_OPEN);
          if !ok {
            return Raised;
          }
          FinalUnrolls(settings, d, start, recent, Event(PrOpened(created), Some(PR_OPEN)));
        } else {
          var ok := Record(d.caseId, PrAttempted(created), PATCH_READY);
          if !ok {
            return Raised;
          }
        }
        return Done;
    }

    /** What other processes do on other cases, between two stages of an advance of this one. */
    method LetOthersStep(batch: seq<CaseLogs.CaseStep>, caseId: string, ghost quiet: bool, ghost began: seq<Row>)
      requires Went(settings, quiet, began, store.rows, caseId) && (quiet ==> batch == [])
      modifies store
      ensures Went(settings, quiet, began, store.rows, caseId) && Valid()
      ensures Stream(caseId) == old(Stream(caseId)) && (quiet ==> store.rows == old(store.rows))
    {
      hide LegalLog, LegalRequest, AppendOutcome, AfterAppend, CaseLogs.OthersOk, CaseLogs.CasesOk, CaseLogs.RequestOf,
        CaseStream, Went, Grew, ValidLog;
      ghost var start := store.rows;
      WentKeepsStarted(settings, quiet, began, start, caseId);
      NoResetReflexive(start);
      for i := 0 to |batch|
        invariant LegalLog(store.rows) && NoResetSince(start, store.rows)
        invariant Stream(caseId) == CaseStream(start, caseId) && (batch == [] ==> store.rows == start)
        invariant CaseLogs.OthersOk(settings, start, caseId) ==> CaseLogs.OthersOk(settings, store.rows, caseId)
      {
        var now: int := *;
        var req := CaseLogs.RequestOf(settings, store.rows, batch[i]);
        if req.Some? && CaseLogs.CaseOf(batch[i]) != caseId {
          ghost var before := store.rows;
          CaseLogs.StepKeepsCases(settings, before, batch[i], now);
          CaseLogs.StepIsLegal(settings, before, batch[i]);
          LegalIsValid(before);
          IngestRace.StageIsNoReset(before, req.value);
          IngestRace.KeepsScope(before, req.value, now);
          var outcome := store.Append(req.value, now);
          NoResetTransitive(start, before, store.rows);
        }
      }
      WentElsewhere(settings, quiet, began, start, store.rows, caseId);
      LegalIsValid(store.rows);
    }

    /** The second half of an advance: from complete inputs to the draft. */
    method Ship(d: Delivery, context: Context, proposals: seq<Proposal>, rivals: Rivals, from: nat,
            ghost began: seq<Row>)
      returns (progress: Progress)
      requires Went(settings, Quiet(rivals), began, store.rows, d.caseId) && Valid() && Started(Stream(d.caseId))
      requires InputsReady(settings, Fold(Stream(d.caseId)), context, proposals)
      modifies store
      ensures Went(settings, Quiet(rivals), began, store.rows, d.caseId)
      ensures progress != Continue
      ensures Run(settings, d, old(Stream(d.caseId)), {}) == Ended(progress, Stream(d.caseId))
    {
      hide Run, Decide, Grew, Went, ValidLog, CaseStream, Apply, Fold, InputsReady, Quiet;
      ghost var quiet := Quiet(rivals);
      ghost var middle := store.rows;
      progress := StartValidation(d, context, proposals);
      WentOn(settings, quiet, began, middle, store.rows, d.caseId);
      if progress != Continue {
        return;
      }
      if Quiet(rivals) { QuietBatch(rivals, from); QuietBatch(rivals, from + 1); QuietBatch(rivals, from + 2); }
      if Quiet(rivals) { QuietBatch(rivals, from + 3); }
      LetOthersStep(rivals(from), d.caseId, quiet, began);
      middle := store.rows;
      var eligible: seq<Assessment>;
      ghost var recent: set<string>;
      progress, eligible, recent := AssessCandidates(d, context, proposals);
      WentOn(settings, quiet, began, middle, store.rows, d.caseId);
      if progress != Continue {
        return;
      }
      LetOthersStep(rivals(from + 1), d.caseId, quiet, began);
      middle := store.rows;
      progress := EnsurePatch(d, context, proposals, eligible, recent);
      WentOn(settings, quiet, began, middle, store.rows, d.caseId);
      if progress != Continue {
        return;
      }
      LetOthersStep(rivals(from + 2), d.caseId, quiet, began);
      middle := store.rows;
      progress := EnsureWriteback(d, context, proposals, recent);
      WentOn(settings, quiet, began, middle, store.rows, d.caseId);
      if progress != Continue {
        return;
      }
      middle := store.rows;
      progress := CheckWriteback(d, context, proposals, recent);
      WentOn(settings, quiet, began, middle, store.rows, d.caseId);
      if progress != Continue {
        return;
      }
      LetOthersStep(rivals(from + 3), d.caseId, quiet, began);
      middle := store.rows;
      progress := Publish(d, context, proposals, recent);
      WentOn(settings, quiet, began, middle, store.rows, d.caseId);
    }

    /** One advance of a case: stage by stage from its checkpoint, stopping where a stage ends
        the case, and raising where an adapter or the store did. Between its stages other
        processes step on other cases. */
    method Advance(d: Delivery, rivals: Rivals, from: nat) returns (raised: bool)
      requires LegalLog(store.rows) && Started(Stream(d.caseId))
      modifies store
      ensures Went(settings, Quiet(rivals), old(store.rows), store.rows, d.caseId)
      ensures Run(settings, d, old(Stream(d.caseId)), {}) ==
              Stream(d.caseId) + if raised then [CRASH] else []
    {
      LegalIsValid(store.rows);
      hide Run, Decide, Grew, Went, LegalLog, ValidLog, CaseStream, Apply, InputsReady, Quiet;
      ghost var began, quiet := store.rows, Quiet(rivals);
      WentNowhere(settings, quiet, began, d.caseId);
      var view := GetCase(d.caseId);
      if view.state !in RESUMABLE {
        EndUnrolls(settings, d, Stream(d.caseId), {});
        return false;
      }
      var progress := EnsureIncident(d);
      WentOn(settings, quiet, began, began, store.rows, d.caseId);
      if progress != Continue {
        return progress == Raised;
      }
      if Quiet(rivals) { QuietBatch(rivals, from); QuietBatch(rivals, from + 1); QuietBatch(rivals, from + 2); }
      LetOthersStep(rivals(from), d.caseId, quiet, began);
      ghost var middle := store.rows;
      var context: Option<Context>;
      progress, context := EnsureContext(d);
      WentOn(settings, quiet, began, middle, store.rows, d.caseId);
      if progress != Continue {
        return progress == Raised;
      }
      LetOthersStep(rivals(from + 1), d.caseId, quiet, began);
      middle := store.rows;
      var proposals: seq<Proposal>;
      progress, proposals := EnsureProposals(d, context.value);
      WentOn(settings, quiet, began, middle, store.rows, d.caseId);
      if progress != Continue {
        return progress == Raised;
      }
      LetOthersStep(rivals(from + 2), d.caseId, quiet, began);
      progress := Ship(d, context.value, proposals, rivals, from + 3, began);
      return progress == Raised;
    }

    /** Advance, and record a raise as a failure of the case; the process then owns the case. */
    method AdvanceSafely(d: Delivery, rivals: Rivals, from: nat)
      requires LegalLog(store.rows) && Started(Stream(d.caseId))
      modifies this`activeCases, this`settledCases, store
      ensures Went(settings, Quiet(rivals), old(store.rows), store.rows, d.caseId)
      ensures Stream(d.caseId) == Run(settings, d, old(Stream(d.caseId)), {})
      ensures CaseHistory.Invariant(settings, old(Stream(d.caseId))) ==>
        AdvanceMeaning.Advanced(settings, d, old(Stream(d.caseId)), Stream(d.caseId))
      ensures CaseLogs.CasesOk(settings, old(store.rows)) ==> CaseLogs.CasesOk(settings, store.rows)
      ensures activeCases == old(activeCases) - {d.caseId}
      ensures settledCases == old(settledCases) + {d.caseId}
    {
      hide CaseHistory.Invariant, AdvanceMeaning.Advanced, Run, Grew, Went, LegalLog, ValidLog, CaseStream,
        Fold, Quiet, CaseLogs.CasesOk, CaseLogs.OthersOk;
      ghost var start := Stream(d.caseId);
      ghost var began := store.rows;
      activeCases := activeCases + {d.caseId};
      var raised := Advance(d, rivals, from);
      WentKeepsStarted(settings, Quiet(rivals), began, store.rows, d.caseId);
      if raised {
        ghost var middle := store.rows;
        RaisedIsResumable(settings, d, start, Stream(d.caseId));
        var current := GetCase(d.caseId);
        if !Terminal(current.state) {
          var ok := Record(d.caseId, CaseFailed(None), CaseState.FAILED);
          WentOn(settings, Quiet(rivals), began, middle, store.rows, d.caseId);
        }
      }
      WentKeepsStarted(settings, Quiet(rivals), began, store.rows, d.caseId);
      CaseLogs.AdvanceKeepsCases(settings, d, began, store.rows);
      if CaseHistory.Invariant(settings, start) {
        AdvanceMeaning.RunAdvanced(settings, d, start);
      }
      activeCases := activeCases - {d.caseId};
      settledCases := settledCases + {d.caseId};
    }

    /** The evidence a verification goes by: recomputed in postgres mode, otherwise the caller's,
        which never suffices for a live incident. */
    method DeploymentEvidence(w: Deployment.Adapters, snapshot: View, request: Deployment.Request)
      returns (answer: Answer<(Deployment.LiveEvidence, EvidenceMode)>)
      ensures answer == Deployment.Evidence(settings, w, snapshot, request)
      ensures answer.Reply? ==> (answer.value.1 == LIVE_RECOMPUTED <==> settings.postgresMode)
      ensures answer.Reply? && settings.postgresMode ==> w.executorIsLive
      ensures answer.Reply? && Deployment.IncidentIsLive(snapshot) ==> answer.value.1 == LIVE_RECOMPUTED
      ensures answer.Reply? && answer.value.1 != LIVE_RECOMPUTED ==> answer.value.0.commit == request.commit
    {
      if settings.postgresMode {
        if !w.executorIsLive {
          return Raise;
        }
        match w.liveEvidence(snapshot, request)
        case Raise => return Raise;
        case Reply(evidence) => return Reply((evidence, LIVE_RECOMPUTED));
      } else {
        if snapshot.incident.Some? && snapshot.incident.value.status == SUCCEEDED {
          return Raise;
        }
        return Reply((Deployment.LiveEvidence(request.execution, request.lineageCurrent, request.commit),
            RECORDED_REPLAY_INPUT));
      }
    }

    /** Verify a deployment: record it, judge the evidence, then contain, or write the final
        evidence and resolve the incident. */
    method VerifyDeployment(caseId: string, w: Deployment.Adapters, request: Deployment.Request) returns (raised: bool)
      requires Valid() && (Stream(caseId) == [] || Started(Stream(caseId)))
      modifies store
      ensures Valid() && Grew(old(store.rows), store.rows, caseId)
      ensures old(Stream(caseId)) == [] ==> raised && store.rows == old(store.rows)
      ensures old(Stream(caseId)) != [] ==>
        var verification := Deployment.Verify(settings, caseId, w, Fold(old(Stream(caseId))), request);
        Stream(caseId) == old(Stream(caseId)) + verification.events && raised == verification.raised
      ensures old(Stream(caseId)) != [] ==>
        && old(Stream(caseId)) <= Stream(caseId)
        && Deployment.VerifiedAs(settings, caseId, w, Fold(old(Stream(caseId))), request,
                                 Stream(caseId)[|old(Stream(caseId))|..], raised)
      ensures CaseLogs.CasesOk(settings, old(store.rows)) ==> CaseLogs.CasesOk(settings, store.rows)
    {
      hide Grew, ValidLog, CaseStream, Fold, Apply, Policy.Evaluate, Deployment.Close, Deployment.Evidence,
        Deployment.Judge, Deployment.VerifiedAs, CaseLogs.CasesOk;
      ghost var began := store.rows;
      GrewReflexive(began, caseId);
      if !CaseIdExists(store.rows, caseId) {
        StreamExists(store.rows, caseId);
        return true;
      }
      StreamExists(store.rows, caseId);
      var snapshot := GetCase(caseId);
      Deployment.VerifyMeans(settings, caseId, w, snapshot, request);
      if snapshot.state != PR_OPEN || snapshot.selected.None? {
        return true;
      }
      var gathered := DeploymentEvidence(w, snapshot, request);
      if gathered.Raise? {
        return true;
      }
      var (evidence, mode) := gathered.value;
      raised := JudgeDeployment(caseId, w, snapshot, evidence, mode);
      CaseLogs.VerificationKeepsCases(settings, caseId, w, request, began, store.rows);
    }

    /** Record the deployment and judge its evidence. */
    method JudgeDeployment(caseId: string, w: Deployment.Adapters, snapshot: View,
                           evidence: Deployment.LiveEvidence, mode: EvidenceMode) returns (raised: bool)
      requires Valid() && Started(Stream(caseId)) && Fold(Stream(caseId)) == snapshot && snapshot.state == PR_OPEN
      modifies store
      ensures Valid() && Grew(old(store.rows), store.rows, caseId)
      ensures var verification := Deployment.Judge(settings, caseId, w, snapshot, evidence, mode);
              Stream(caseId) == old(Stream(caseId)) + verification.events && raised == verification.raised
    {
      hide Grew, ValidLog, CaseStream, Fold, Apply, Policy.Evaluate, Deployment.Close, Concise,
        Deployment.PolicyReasons;
      ghost var began := store.rows;
      ghost var recorded := Event(DeploymentRecorded(evidence.commit, mode), Some(DEPLOYED));
      var ok := Record(caseId, DeploymentRecorded(evidence.commit, mode), DEPLOYED);
      MovesTo(snapshot, recorded);
      ghost var middle := store.rows;
      var decision := Policy.Evaluate(settings.policy, evidence.execution, evidence.lineageCurrent);
      if !decision.accepted {
        raised := RefuseDeployment(caseId, w, snapshot, Concise(Deployment.PolicyReasons(decision.reasons)));
      } else {
        raised := AcceptDeployment(caseId, w, snapshot, evidence, mode, decision.checks, recorded);
      }
      GrewTransitive(began, middle, store.rows, caseId);
    }

    /** Evidence that fails the policy contains the case. */
    method RefuseDeployment(caseId: string, w: Deployment.Adapters, snapshot: View, reasons: seq<Reason>)
      returns (raised: bool)
      requires Valid() && Started(Stream(caseId)) && Fold(Stream(caseId)).state == DEPLOYED
      modifies store
      ensures Valid() && Grew(old(store.rows), store.rows, caseId)
      ensures match w.writeReport(snapshot.change.entityUrn, caseId, Refused(reasons))
              case Raise => raised && Stream(caseId) == old(Stream(caseId))
              case Reply(writeback) =>
                && !raised
                && Stream(caseId) ==
                   old(Stream(caseId)) + [Event(CaseContained(reasons, writeback), Some(CONTAINED))]
    {
      hide Grew, ValidLog, CaseStream, Fold;
      GrewReflexive(store.rows, caseId);
      match w.writeReport(snapshot.change.entityUrn, caseId, Refused(reasons))
      case Raise => return true;
      case Reply(writeback) =>
        var ok := Record(caseId, CaseContained(reasons, writeback), CONTAINED);
        return false;
    }

    /** Evidence that passes is recorded, and the case closed. */
    method AcceptDeployment(caseId: string, w: Deployment.Adapters, snapshot: View, evidence: Deployment.LiveEvidence,
                            mode: EvidenceMode, checks: seq<Check>, ghost recorded: Event) returns (raised: bool)
      requires Valid() && Started(Stream(caseId)) && Fold(Stream(caseId)).state == DEPLOYED
      modifies store
      ensures Valid() && Grew(old(store.rows), store.rows, caseId)
      ensures var verified :=
                Event(PostDeployVerified(evidence.commit, mode, evidence.execution, checks),
                    Some(POST_DEPLOY_VERIFIED));
              var verification :=
                Deployment.Close(caseId, w, snapshot, evidence.commit, checks, [recorded, verified]);
              && old(Stream(caseId)) + verification.events[1..] == Stream(caseId)
              && verification.events != [] && verification.events[0] == recorded
              && raised == verification.raised
    {
      hide Grew, ValidLog, CaseStream, Fold, Apply, Deployment.Close;
      ghost var began := store.rows;
      ghost var verified :=
        Event(PostDeployVerified(evidence.commit, mode, evidence.execution, checks), Some(POST_DEPLOY_VERIFIED));
      MovesTo(Fold(Stream(caseId)), verified);
      var ok := Record(caseId, PostDeployVerified(evidence.commit, mode, evidence.execution, checks),
                       POST_DEPLOY_VERIFIED);
      ghost var middle := store.rows;
      raised := CloseVerified(caseId, w, snapshot, evidence.commit, checks, [recorded, verified]);
      GrewTransitive(began, middle, store.rows, caseId);
    }

    /** The end of a verification that passed: final write-back, then the incident. */
    method CloseVerified(caseId: string, w: Deployment.Adapters, snapshot: View, commit: string, checks: seq<Check>,
                         ghost recorded: seq<Event>) returns (raised: bool)
      requires Valid() && Started(Stream(caseId)) && Fold(Stream(caseId)).state == POST_DEPLOY_VERIFIED
      modifies store
      ensures Valid() && Grew(old(store.rows), store.rows, caseId)
      ensures old(Stream(caseId)) <= Stream(caseId)
      ensures var verification := Deployment.Close(caseId, w, snapshot, commit, checks, recorded);
              && verification.events == recorded + Stream(caseId)[|old(Stream(caseId))|..]
              && verification.raised == raised
    {
      hide Grew, ValidLog, CaseStream, Fold;
      GrewReflexive(store.rows, caseId);
      match w.writeReport(snapshot.change.entityUrn, caseId, Recovered(commit, checks))
      case Raise => return true;
      case Reply(written) =>
        if Deployment.IncidentIsLive(snapshot) && written.status != SUCCEEDED {
          var ok := Record(caseId, CaseFailed(Some(written)), CaseState.FAILED);
          return false;
        }
        match w.resolveIncident(snapshot.incidentUrn)
        case Raise => return true;
        case Reply(resolution) =>
          if Deployment.IncidentIsLive(snapshot) && resolution.status != SUCCEEDED {
            var ok := Record(caseId, CaseFailed(Some(resolution)), CaseState.FAILED);
            return false;
          }
          var ok := Record(caseId, IncidentResolved(resolution), RESOLVED);
          return false;
    }

    /** A reset holds the worker lock, so no ingest of this process is under way: it opens a scope
        in which no case exists. */
    method Reset(reason: string) returns (sequence: nat)
      requires LegalLog(store.rows)
      modifies store
      ensures LegalLog(store.rows) && old(store.rows) < store.rows && sequence == |store.rows|
      ensures CurrentScope(store.rows) == sequence
      ensures forall id :: Stream(id) == []
      ensures CaseLogs.CasesOk(settings, store.rows)
    {
      var now: int := *;
      ghost var before := store.rows;
      LegalReset(before, reason, now);
      sequence := store.Reset(reason, now);
      LegalIsValid(before);
      CaseLogs.ResetKeepsCases(settings, before, reason, now);
    }

    // ---- Ingest ----

    /** What other processes do meanwhile: any steps of an ingest, an advance or a verification. */
    method LetOthersAppend(batch: seq<CaseLogs.CaseStep>)
      requires LegalLog(store.rows)
      modifies store
      ensures LegalLog(store.rows) && NoResetSince(old(store.rows), store.rows)
      ensures CaseLogs.CasesOk(settings, old(store.rows)) ==> CaseLogs.CasesOk(settings, store.rows)
      ensures batch == [] ==> store.rows == old(store.rows)
    {
      hide LegalLog, LegalRequest, AppendOutcome, AfterAppend, CaseLogs.CasesOk, CaseLogs.RequestOf;
      for i := 0 to |batch|
        invariant LegalLog(store.rows) && NoResetSince(old(store.rows), store.rows)
        invariant CaseLogs.CasesOk(settings, old(store.rows)) ==> CaseLogs.CasesOk(settings, store.rows)
        invariant batch == [] ==> store.rows == old(store.rows)
      {
        var now: int := *;
        var req := CaseLogs.RequestOf(settings, store.rows, batch[i]);
        if req.Some? {
          ghost var before := store.rows;
          CaseLogs.StepKeepsCases(settings, before, batch[i], now);
          CaseLogs.StepIsLegal(settings, before, batch[i]);
          LegalIsValid(before);
          IngestRace.StageIsNoReset(before, req.value);
          IngestRace.KeepsScope(before, req.value, now);
          var outcome := store.Append(req.value, now);
        }
      }
    }

    /** The answer for a case that already has the key, unless the event id is bound elsewhere. */
    method DeduplicatedResponse(change: SchemaChange, key: string, caseId: string)
      returns (answer: Answer<Option<Response>>)
      ensures answer.Raise? <==> IngestRace.CheckEventId(store.rows, DetectionOf(change, key, caseId)).Clash?
      ensures answer.Reply? ==>
        match Project(EventsForCase(store.rows, caseId, 0))
        case None => answer.value.None?
        case Some(snapshot) => answer.value == Some(CaseResponse(caseId, snapshot, true))
    {
      if IngestRace.CheckEventId(store.rows, DetectionOf(change, key, caseId)).Clash? {
        return Raise;
      }
      var found := store.GetCase(caseId);
      match found
      case None => return Reply(None);
      case Some(snapshot) => return Reply(Some(CaseResponse(caseId, snapshot, true)));
    }

    /** The key's own case, or the narrowest prefix of its digest that no probe found taken. */
    method AvailableCaseId(key: string, rivals: Rivals, from: nat, ghost attempt: nat)
      returns (caseId: Option<string>, tick: nat)
      requires LegalLog(store.rows) && Digest(key) && attempt < IngestRace.ATTEMPTS
      requires FindCaseForDedup(store.rows, key).None? ==> IngestRace.TakenBelow(store.rows, key, 8 * (attempt + 1))
      modifies store
      ensures LegalLog(store.rows) && NoResetSince(old(store.rows), store.rows)
      ensures CaseLogs.CasesOk(settings, old(store.rows)) ==> CaseLogs.CasesOk(settings, store.rows)
      ensures caseId.Some? ==> IngestRace.Holds(store.rows, key, attempt, caseId.value)
      ensures caseId.None? ==>
        FindCaseForDedup(old(store.rows), key).None? && FindCaseForDedup(store.rows, key).Some?
      ensures Quiet(rivals) ==>
        store.rows == old(store.rows) && caseId == IngestRace.Available(old(store.rows), key) && caseId.Some?
    {
      hide CaseLogs.CasesOk, LegalLog, Digest, CurrentScope, CaseIdExists, NoResetSince, FindCaseForDedup, WideId,
        IngestRace.TakenBelow,
        IngestRace.Recorded, Quiet, IngestRace.FirstFree;
      ghost var start := store.rows;
      IngestRace.LengthOfDigest(key);
      IngestRace.AtomicAllocationSucceeds(start, key);
      LetOthersAppend(rivals(from));
      tick := from + 1;
      if Quiet(rivals) { QuietBatch(rivals, from); }
      IngestRace.FoundIsRecorded(store.rows, key);
      var existing := FindCaseForDedup(store.rows, key);
      if existing.Some? {
        return existing, tick;
      }
      ghost var seen := store.rows;
      FloorStays(start, seen, key, 8 * (attempt + 1));
      NothingBelowEight(seen, key);
      NoResetReflexive(seen);
      // The preferred short id first, then ever wider ones.
      var width := 8;
      while width <= 64
        invariant 8 <= width <= 72 && width % 8 == 0
        invariant LegalLog(store.rows) && NoResetSince(seen, store.rows)
        invariant CaseLogs.CasesOk(settings, start) ==> CaseLogs.CasesOk(settings, store.rows)
        invariant IngestRace.TakenBelow(store.rows, key, width)
        invariant IngestRace.TakenBelow(store.rows, key, 8 * (attempt + 1))
        invariant Quiet(rivals) ==> store.rows == start
        invariant Quiet(rivals) ==> IngestRace.FirstFree(start, key, width) == IngestRace.FirstFree(start, key, 8)
      {
        ghost var before := store.rows;
        LetOthersAppend(rivals(tick));
        if Quiet(rivals) { QuietBatch(rivals, tick); }
        tick := tick + 1;
        StillTaken(seen, before, store.rows, key, width);
        StillTaken(seen, before, store.rows, key, 8 * (attempt + 1));
        var candidate := if width == 8 then CaseIdFromDedup(key) else WideId(key, width);
        FirstFreeStep(store.rows, key, width);
        if !CaseIdExists(store.rows, candidate) {
          IngestRace.ProbeHolds(store.rows, key, attempt, width);
          NoResetTransitive(start, seen, store.rows);
          return Some(candidate), tick;
        }
        OneMoreTaken(store.rows, key, width);
        width := width + 8;
      }
      NoResetTransitive(start, seen, store.rows);
      AllTaken(store.rows, key);
      NotYetRecorded(start, seen, key);
      FirstFreeStep(start, key, width);
      return None, tick;
    }

    /** Claim an id for the key: allocate, check the event id, append the detection; when another
        process took the id meanwhile, allocate again. */
    method ClaimCaseId(change: SchemaChange, key: string, rivals: Rivals, from: nat) returns (claim: Claim, tick: nat)
      requires LegalLog(store.rows) && Digest(key)
      modifies store
      ensures LegalLog(store.rows) && NoResetSince(old(store.rows), store.rows)
      ensures CaseLogs.CasesOk(settings, old(store.rows)) ==> CaseLogs.CasesOk(settings, store.rows)
      ensures claim.Claimed? ==>
        && FindCaseForDedup(old(store.rows), key).None?
        && FindCaseForDedup(store.rows, key) == Some(claim.caseId)
        && Stream(claim.caseId) == [DetectionEvent(change, claim.caseId)]
      ensures claim.AlreadyClaimed? ==> FindCaseForDedup(store.rows, key) == Some(claim.caseId)
      ensures claim.NoIdFree? ==>
        FindCaseForDedup(old(store.rows), key).None? && FindCaseForDedup(store.rows, key).Some?
      ensures Quiet(rivals) && FindCaseForDedup(old(store.rows), key).None? ==>
        && IngestRace.Available(old(store.rows), key).Some?
        && var caseId := IngestRace.Available(old(store.rows), key).value;
           if IngestRace.CheckEventId(old(store.rows), DetectionOf(change, key, caseId)).Clash?
           then claim.IdReused? && store.rows == old(store.rows)
           else claim == Claimed(caseId)
    {
      hide CaseLogs.CasesOk, LegalLog, Digest, CurrentScope, CaseIdExists, NoResetSince, FindCaseForDedup, WideId,
        AppendOutcome, AfterAppend,
        CaseStream, Quiet, IngestRace.TakenBelow, IngestRace.Recorded, IngestRace.Holds, IngestRace.Available,
            IngestRace.CheckEventId;
      ghost var start := store.rows;
      IngestRace.LengthOfDigest(key);
      NothingBelowEight(start, key);
      var available: Option<string>;
      available, tick := AvailableCaseId(key, rivals, from, 0);
      if available.None? {
        return NoIdFree, tick;
      }
      var caseId := available.value;
      var attempt := 0;
      while true
        invariant attempt < IngestRace.ATTEMPTS
        invariant LegalLog(store.rows) && NoResetSince(start, store.rows)
        invariant CaseLogs.CasesOk(settings, start) ==> CaseLogs.CasesOk(settings, store.rows)
        invariant IngestRace.Holds(store.rows, key, attempt, caseId)
        invariant Quiet(rivals) ==> attempt == 0 && store.rows == start
                                    && IngestRace.Available(start, key) == Some(caseId)
        decreases IngestRace.ATTEMPTS - attempt
      {
        OthersMayAppend(rivals, tick, key, attempt, caseId, start);
        tick := tick + 1;
        var checked := IngestRace.CheckEventId(store.rows, DetectionOf(change, key, caseId));
        CheckedMeans(store.rows, change, key, caseId);
        if checked.Bound? {
          return AlreadyClaimed(checked.caseId), tick;
        } else if checked.Clash? {
          return IdReused, tick;
        }
        ghost var before := store.rows;
        OthersMayAppend(rivals, tick, key, attempt, caseId, start);
        tick := tick + 1;
        before := store.rows;
        var now: int := *;
        AppendsDetection(start, before, change, key, caseId, attempt, now);
        DetectionKeepsCases(settings, before, change, key, caseId, attempt, now);
        if Quiet(rivals) {
          QuietAppends(before, change, key, caseId, now);
        }
        var outcome := store.Append(DetectionOf(change, key, caseId), now);
        match outcome
        case Appended(_) =>
          return Claimed(caseId), tick;
        case Duplicate(other) =>
          return AlreadyClaimed(other), tick;
        case Conflict(_) =>
          return IdReused, tick;
        case InvalidTransition =>
          IngestRace.RefusedWidens(before, key, attempt, caseId);
          // The source re-raises on its eighth attempt; that never comes to pass.
          assert attempt != IngestRace.ATTEMPTS - 1;
          ghost var refused := store.rows;
          available, tick := AvailableCaseId(key, rivals, tick, attempt + 1);
          NoResetTransitive(start, refused, store.rows);
          if available.None? {
            NotYetRecorded(start, refused, key);
            return NoIdFree, tick;
          }
          caseId := available.value;
          attempt := attempt + 1;
      }
    }

    /** Others append; what this process holds it still holds. */
    method OthersMayAppend(rivals: Rivals, tick: nat, key: string, ghost attempt: nat, ghost caseId: string,
          ghost start: seq<Row>)
      requires LegalLog(store.rows) && NoResetSince(start, store.rows) && |key| == 64
      requires IngestRace.Holds(store.rows, key, attempt, caseId)
      modifies store
      ensures LegalLog(store.rows) && NoResetSince(start, store.rows)
      ensures CaseLogs.CasesOk(settings, old(store.rows)) ==> CaseLogs.CasesOk(settings, store.rows)
      ensures IngestRace.Holds(store.rows, key, attempt, caseId)
      ensures Quiet(rivals) ==> store.rows == old(store.rows)
    {
      hide CaseLogs.CasesOk, LegalLog, NoResetSince, IngestRace.Holds, Quiet;
      LetOthersAppend(rivals(tick));
      if Quiet(rivals) { QuietBatch(rivals, tick); }
      IngestRace.HoldStays(old(store.rows), store.rows, key, attempt, caseId);
      NoResetTransitive(start, old(store.rows), store.rows);
    }

    /** Advance, then answer with the case as it is now. */
    method AdvanceAndAnswer(d: Delivery, ghost key: string, deduplicated: bool, rivals: Rivals, from: nat)
      returns (response: Response)
      requires LegalLog(store.rows) && FindCaseForDedup(store.rows, key) == Some(d.caseId) && Started(Stream(d.caseId))
      modifies this`activeCases, this`settledCases, store
      ensures LegalLog(store.rows) && NoResetSince(old(store.rows), store.rows)
      ensures CaseLogs.CasesOk(settings, old(store.rows)) ==> CaseLogs.CasesOk(settings, store.rows)
      ensures AnswersFor(store.rows, key, response)
      ensures response.caseId == d.caseId && response.deduplicated == deduplicated
      ensures Stream(d.caseId) == Run(settings, d, old(Stream(d.caseId)), {})
      ensures activeCases == old(activeCases) - {d.caseId}
      ensures settledCases == old(settledCases) + {d.caseId}
    {
      hide CaseLogs.CasesOk, CaseLogs.OthersOk, Went, Quiet, NoResetSince, LegalLog, ValidLog, Run, Fold, CaseStream,
        FindCaseForDedup, Grew, Project, EventsForCase;
      AdvanceSafely(d, rivals, from);
      WentKeepsStarted(settings, Quiet(rivals), old(store.rows), store.rows, d.caseId);
      AdvanceKeepsKey(old(store.rows), store.rows, key, d.caseId);
      FoundIsStarted(store.rows, key);
      var snapshot := store.GetCase(d.caseId);
      return CaseResponse(d.caseId, snapshot.value, deduplicated);
    }

    /** A key that has its case already: resume the case if it can go on and is not owned. */
    method Redeliver(d: Delivery, ghost key: string, duplicate: Response, rivals: Rivals, from: nat)
      returns (response: Response)
      requires LegalLog(store.rows) && AnswersFor(store.rows, key, duplicate)
      requires duplicate.caseId == d.caseId && duplicate.deduplicated && Started(Stream(d.caseId))
      requires duplicate.snapshot.view == Fold(Stream(d.caseId))
      modifies this`activeCases, this`settledCases, store
      ensures LegalLog(store.rows) && NoResetSince(old(store.rows), store.rows)
      ensures CaseLogs.CasesOk(settings, old(store.rows)) ==> CaseLogs.CasesOk(settings, store.rows)
      ensures AnswersFor(store.rows, key, response)
      ensures response.caseId == d.caseId && response.deduplicated
      ensures Stream(d.caseId) ==
        Redelivery(settings, d, old(Stream(d.caseId)), old(activeCases) + old(settledCases))
    {
      hide CaseLogs.CasesOk, LegalLog, Run, Fold, CaseStream, FindCaseForDedup, NoResetSince, Project, EventsForCase;
      if duplicate.snapshot.view.state in RESUMABLE && d.caseId !in activeCases + settledCases {
        response := AdvanceAndAnswer(d, key, true, rivals, from);
      } else {
        NoResetReflexive(store.rows);
        response := duplicate;
      }
    }

    /** A key without a case: claim an id and advance the case, or meet someone who did. */
    method OpenCase(change: SchemaChange, adapters: Recovery.Adapters, key: string, rivals: Rivals, from: nat)
      returns (response: Response)
      requires LegalLog(store.rows) && Digest(key)
      modifies this`activeCases, this`settledCases, store
      ensures LegalLog(store.rows) && NoResetSince(old(store.rows), store.rows)
      ensures CaseLogs.CasesOk(settings, old(store.rows)) ==> CaseLogs.CasesOk(settings, store.rows)
      ensures !response.NotAllowed?
      ensures response.AllocationFailed? ==>
        FindCaseForDedup(old(store.rows), key).None? && FindCaseForDedup(store.rows, key).Some?
      ensures response.CaseResponse? ==> AnswersFor(store.rows, key, response)
      ensures response.CaseResponse? && !response.deduplicated ==>
        && FindCaseForDedup(old(store.rows), key).None?
        && OpenedAndRun(settings, store.rows, Delivery(response.caseId, change, adapters))
      ensures Quiet(rivals) && FindCaseForDedup(old(store.rows), key).None? ==>
        && |key| == 64 && IngestRace.Available(old(store.rows), key).Some?
        && var caseId := IngestRace.Available(old(store.rows), key).value;
           if IngestRace.CheckEventId(old(store.rows), DetectionOf(change, key, caseId)).Clash?
           then response.EventConflict? && store.rows == old(store.rows)
           else response.CaseResponse? && response.caseId == caseId && !response.deduplicated
    {
      hide CaseLogs.CasesOk, LegalLog, Digest, Run, Fold, CaseStream, FindCaseForDedup, NoResetSince, Project,
        EventsForCase, Quiet,
        IngestRace.Available, IngestRace.CheckEventId;
      IngestRace.LengthOfDigest(key);
      ghost var start := store.rows;
      var claim, tick := ClaimCaseId(change, key, rivals, from);
      ghost var middle := store.rows;
      match claim
      case Claimed(caseId) =>
        response := AdvanceAndAnswer(Delivery(caseId, change, adapters), key, false, rivals, tick);
        NoResetTransitive(start, middle, store.rows);
      case AlreadyClaimed(caseId) =>
        FoundIsStarted(store.rows, key);
        var snapshot := store.GetCase(caseId);
        return CaseResponse(caseId, snapshot.value, true);
      case IdReused =>
        return EventConflict;
      case NoIdFree =>
        return AllocationFailed;
    }

    /** Under the worker lock: look again, then answer or resume the key's case, or open a new one. */
    method IngestLocked(change: SchemaChange, adapters: Recovery.Adapters, rivals: Rivals) returns (response: Response)
      requires LegalLog(store.rows) && HexDigests(settings)
      modifies this`activeCases, this`settledCases, store
      ensures LegalLog(store.rows) && NoResetSince(old(store.rows), store.rows)
      ensures CaseLogs.CasesOk(settings, old(store.rows)) ==> CaseLogs.CasesOk(settings, store.rows)
      ensures !response.NotAllowed?
      ensures response.AllocationFailed? ==>
        && FindCaseForDedup(old(store.rows), KeyOf(settings, change)).None?
        && FindCaseForDedup(store.rows, KeyOf(settings, change)).Some?
      ensures response.CaseResponse? ==> AnswersFor(store.rows, KeyOf(settings, change), response)
      ensures response.CaseResponse? && !response.deduplicated ==>
        && FindCaseForDedup(old(store.rows), KeyOf(settings, change)).None?
        && OpenedAndRun(settings, store.rows, Delivery(response.caseId, change, adapters))
      ensures Quiet(rivals) ==>
        QuietAnswer(settings, old(store.rows), store.rows, old(activeCases) + old(settledCases), change, adapters,
            response)
    {
      hide CaseLogs.CasesOk, LegalLog, HexDigests, Digest, Run, Fold, CaseStream, FindCaseForDedup, NoResetSince,
        Project, EventsForCase, Quiet, IngestRace.Available, IngestRace.CheckEventId, KeyOf, OpenedAndRun;
      var key := KeyOf(settings, change);
      KeyIsDigest(settings, change);
      ghost var start := store.rows;
      LetOthersAppend(rivals(1));
      if Quiet(rivals) { QuietBatch(rivals, 1); }
      var existing := FindCaseForDedup(store.rows, key);
      ghost var middle := store.rows;
      if existing.Some? {
        FoundIsStarted(store.rows, key);
        KnownIsAvailable(store.rows, key);
        var duplicate := DeduplicatedResponse(change, key, existing.value);
        if duplicate.Raise? {
          return EventConflict;
        }
        response := Redeliver(Delivery(existing.value, change, adapters), key, duplicate.value.value, rivals, 2);
        NoResetTransitive(start, middle, store.rows);
        return;
      }
      response := OpenCase(change, adapters, key, rivals, 2);
      NoResetTransitive(start, middle, store.rows);
      NotYetRecorded(start, middle, key);
    }

    /** Take a schema change: refuse a foreign asset, answer a redelivery, resume a case this
        process does not own, or open a new case and advance it. */
    method Ingest(change: SchemaChange, adapters: Recovery.Adapters, rivals: Rivals) returns (response: Response)
      requires LegalLog(store.rows) && HexDigests(settings)
      modifies this`activeCases, this`settledCases, store
      ensures LegalLog(store.rows) && NoResetSince(old(store.rows), store.rows)
      ensures CaseLogs.CasesOk(settings, old(store.rows)) ==> CaseLogs.CasesOk(settings, store.rows)
      ensures response.NotAllowed? <==> change.entityUrn !in settings.allowedAssets
      ensures response.NotAllowed? ==> store.rows == old(store.rows)
      ensures response.AllocationFailed? ==>
        && FindCaseForDedup(old(store.rows), KeyOf(settings, change)).None?
        && FindCaseForDedup(store.rows, KeyOf(settings, change)).Some?
      ensures response.CaseResponse? ==> AnswersFor(store.rows, KeyOf(settings, change), response)
      ensures response.CaseResponse? && !response.deduplicated ==>
        && FindCaseForDedup(old(store.rows), KeyOf(settings, change)).None?
        && OpenedAndRun(settings, store.rows, Delivery(response.caseId, change, adapters))
        && AdvanceMeaning.Advanced(settings, Delivery(response.caseId, change, adapters),
             [Event(SchemaChangeDetected(change, "urn:li:dataRescueIncident:" + response.caseId), Some(DETECTED))],
             Stream(response.caseId))
      ensures Quiet(rivals) && !response.NotAllowed? ==>
        IngestMeaning.IngestedAs(settings, old(store.rows), store.rows, old(activeCases) + old(settledCases), change,
            adapters, KeyOf(settings, change), response)
      ensures Quiet(rivals) && !response.NotAllowed? ==>
        forall i ::
          && InScope(old(store.rows), i)
          && IngestMeaning.Detects(old(store.rows)[i], change, KeyOf(settings, change), old(store.rows)[i].caseId)
          && (change.eventId.Some? ==> old(store.rows)[i].eventId == Supplied(change.eventId.value))
          ==> response.CaseResponse? && response.caseId == old(store.rows)[i].caseId && response.deduplicated
    {
      response := IngestDelivery(change, adapters, rivals);
      hide *;
      if response.CaseResponse? && !response.deduplicated {
        IngestMeaning.OpenedIsAdvanced(settings, store.rows, Delivery(response.caseId, change, adapters));
      }
      if Quiet(rivals) && !response.NotAllowed? {
        ghost var before, owned := old(store.rows), old(activeCases) + old(settledCases);
        IngestMeaning.QuietMeans(settings, before, store.rows, owned, change, adapters, response);
        IngestMeaning.RedeliveriesAreAnswered(settings, before, store.rows, owned, change, adapters, response);
      }
    }

    /** The same, as the queries on the log have it. */
    method IngestDelivery(change: SchemaChange, adapters: Recovery.Adapters, rivals: Rivals)
      returns (response: Response)
      requires LegalLog(store.rows) && HexDigests(settings)
      modifies this`activeCases, this`settledCases, store
      ensures LegalLog(store.rows) && NoResetSince(old(store.rows), store.rows)
      ensures CaseLogs.CasesOk(settings, old(store.rows)) ==> CaseLogs.CasesOk(settings, store.rows)
      ensures response.NotAllowed? <==> change.entityUrn !in settings.allowedAssets
      ensures response.NotAllowed? ==> store.rows == old(store.rows)
      ensures response.AllocationFailed? ==>
        && FindCaseForDedup(old(store.rows), KeyOf(settings, change)).None?
        && FindCaseForDedup(store.rows, KeyOf(settings, change)).Some?
      ensures response.CaseResponse? ==> AnswersFor(store.rows, KeyOf(settings, change), response)
      ensures response.CaseResponse? && !response.deduplicated ==>
        && FindCaseForDedup(old(store.rows), KeyOf(settings, change)).None?
        && OpenedAndRun(settings, store.rows, Delivery(response.caseId, change, adapters))
      ensures Quiet(rivals) && !response.NotAllowed? ==>
        QuietAnswer(settings, old(store.rows), store.rows, old(activeCases) + old(settledCases), change, adapters,
            response)
    {
      hide CaseLogs.CasesOk, LegalLog, HexDigests, Digest, Run, Fold, CaseStream, FindCaseForDedup, NoResetSince,
        Project, EventsForCase, Quiet,
        IngestRace.Available, IngestRace.CheckEventId, KeyOf, OpenedAndRun;
      NoResetReflexive(store.rows);
      if change.entityUrn !in settings.allowedAssets {
        return NotAllowed;
      }
      var key := KeyOf(settings, change);
      KeyIsDigest(settings, change);
      ghost var start := store.rows;
      // A look ahead of the worker lock, so that a redelivery need not queue behind a long run.
      LetOthersAppend(rivals(0));
      if Quiet(rivals) { QuietBatch(rivals, 0); }
      var existing := FindCaseForDedup(store.rows, key);
      if existing.Some? {
        FoundIsStarted(store.rows, key);
        KnownIsAvailable(store.rows, key);
        var duplicate := DeduplicatedResponse(change, key, existing.value);
        if duplicate.Raise? {
          return EventConflict;
        }
        if duplicate.value.value.snapshot.view.state !in RESUMABLE || existing.value in activeCases + settledCases {
          return duplicate.value.value;
        }
      }
      ghost var middle := store.rows;
      response := IngestLocked(change, adapters, rivals);
      NoResetTransitive(start, middle, store.rows);
      NotRecordedBefore(start, middle, key);
    }
  }
}
