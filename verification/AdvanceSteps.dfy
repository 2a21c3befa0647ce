/** What an advance does to the log, and runs unrolled one step at a time. */
module AdvanceSteps {
  import opened Model
  import opened StateMachine
  import opened Log
  import opened Projection
  import opened Store
  import opened Recovery
  import opened CaseIdentity
  import Policy

  // ---- What an advance does to the log ----

  /** The log grew by these events of this case; nothing was reset, other cases are untouched. */
  ghost predicate Extended(rows: seq<Row>, after: seq<Row>, caseId: string, events: seq<Event>) {
    && ValidLog(after)
    && StagesOnly(rows, after, caseId)
    && CurrentScope(after) == CurrentScope(rows)
    && CaseStream(after, caseId) == CaseStream(rows, caseId) + events
    && forall id :: id != caseId ==> CaseStream(after, id) == CaseStream(rows, id)
  }

  lemma {:induction false} ExtendedTransitive(a: seq<Row>, b: seq<Row>, c: seq<Row>, caseId: string,
        first: seq<Event>, second: seq<Event>)
    requires Extended(a, b, caseId, first) && Extended(b, c, caseId, second)
    ensures Extended(a, c, caseId, first + second)
  {
    assert CaseStream(a, caseId) + first + second == CaseStream(a, caseId) + (first + second);
    hide ValidLog, CaseStream, CurrentScope;
    forall i | |a| <= i < |c|
      ensures c[i].caseId == caseId && c[i].dedupKey.None? && c[i].event.state.Some?
      ensures !c[i].event.body.SchemaChangeDetected? && !c[i].event.body.SystemReset?
    {
      assert i < |b| ==> c[i] == b[i];
    }
  }

  lemma {:induction false} AppendExtends(rows: seq<Row>, req: Request, now: int)
    requires ValidLog(rows) && AppendOutcome(rows, req, now).Appended?
    requires !req.body.SystemReset? && !req.body.SchemaChangeDetected? && req.dedupKey.None?
    ensures Extended(rows, AfterAppend(rows, req, now), req.caseId, [Event(req.body, Some(req.state))])
  {
    AppendKeepsValid(rows, req, now);
    AppendExtendsStream(rows, req, now, req.caseId);
    forall id | id != req.caseId ensures CaseStream(AfterAppend(rows, req, now), id) == CaseStream(rows, id) {
      AppendExtendsStream(rows, req, now, id);
    }
  }

  // ---- Runs, unrolled one step at a time ----

  /** The step the workflow decides on at these events. */
  ghost predicate Decides(settings: Settings, d: Delivery, events: seq<Event>, recent: set<string>, event: Event) {
    && Started(events)
    && Fold(events).state in RESUMABLE
    && Decide(settings, d, Fold(events), recent) == Some(event)
  }

  lemma {:induction false} StepUnrolls(settings: Settings, d: Delivery, events: seq<Event>, recent: set<string>,
        event: Event)
    requires Decides(settings, d, events, recent, event)
    ensures event.state.Some?
    ensures Started(events + [event]) && Fold(events + [event]) == Apply(Fold(events), event)
    ensures ValidTransition(Some(Fold(events).state), event.state.value) ==>
            Run(settings, d, events, recent) ==
            if event.body.PrAttempted? then events + [event]
            else Run(settings, d, events + [event], RecentAfter(recent, event))
    ensures !ValidTransition(Some(Fold(events).state), event.state.value) ==>
            Run(settings, d, events, recent) == events + [CRASH]
  {
    FoldStep(events, event);
    FoldStep(events, CRASH);
    hide Decide, Fold, Apply;
  }

  lemma {:induction false} EndUnrolls(settings: Settings, d: Delivery, events: seq<Event>, recent: set<string>)
    requires Started(events)
    requires Fold(events).state !in RESUMABLE || Decide(settings, d, Fold(events), recent).None?
    ensures Run(settings, d, events, recent) == events
  {
  }

  /** A step into a state that is not resumable is the last one. */
  lemma {:induction false} FinalUnrolls(settings: Settings, d: Delivery, events: seq<Event>, recent: set<string>,
        event: Event)
    requires Decides(settings, d, events, recent, event)
    requires event.state.Some? && event.state.value !in RESUMABLE
    requires ValidTransition(Some(Fold(events).state), event.state.value)
    ensures Run(settings, d, events, recent) == events + [event]
  {
    StepUnrolls(settings, d, events, recent, event);
    ApplyFields(Fold(events), event);
    hide Decide, Apply;
    EndUnrolls(settings, d, events + [event], RecentAfter(recent, event));
  }

  lemma {:induction false} ContainUnrolls(settings: Settings, d: Delivery, events: seq<Event>, recent: set<string>,
        reasons: seq<Reason>)
    requires Decides(settings, d, events, recent, Recovery.Contain(d, reasons))
    ensures Run(settings, d, events, recent) == events + [Recovery.Contain(d, reasons)]
  {
    hide Run, Decide;
    FinalUnrolls(settings, d, events, recent, Recovery.Contain(d, reasons));
  }

  /** The stages of `Decide`, one at a time. */
  lemma {:induction false} DecidesInOrder(settings: Settings, d: Delivery, events: seq<Event>, recent: set<string>)
    requires Started(events) && Fold(events).state in RESUMABLE
    ensures var view := Fold(events);
            if view.incident.None? then Decides(settings, d, events, recent, RaiseIncident(d))
            else if !Ready(settings, view.incident.value) then
              Decides(settings, d, events, recent, NotReady(view.incident.value))
            else if view.context.None? then Decides(settings, d, events, recent, GatherContext(settings, d))
            else if !Complete(view.context.value) then
              Decides(settings, d, events, recent, Recovery.Contain(d, [PersistedContextIncomplete]))
            else if view.generation.None? || view.proposals == [] then
              Decides(settings, d, events, recent, Generate(settings, d, view.context.value))
            else if !Ready(settings, view.generation.value) then
              Decides(settings, d, events, recent, NotReady(view.generation.value))
            else if !DistinctIds(view.proposals) then Decides(settings, d, events, recent, CRASH)
            else Decide(settings, d, view, recent) == Validate(settings, d, view, view.context.value, recent)
  {
    hide Validate, RaiseIncident, GatherContext, Generate, Contain, NotReady;
  }

  /** The stages of `Validate`, one at a time. */
  lemma {:induction false} ValidatesInOrder(settings: Settings, d: Delivery, view: View, context: Context,
        recent: set<string>)
    ensures var pending := Pending(view.proposals, view.candidates);
            var eligible := Eligible(view.proposals, view.candidates);
            var step := Validate(settings, d, view, context, recent);
            if view.state == CANDIDATES_READY then
              step == Some(Event(ValidationStarted(|view.proposals|), Some(VALIDATING)))
            else if pending != [] then
              step == Some(Event(CandidateAssessed(Assess(settings, d, pending[0], context)), Some(VALIDATING)))
            else if eligible == [] then
              step == Some(Recovery.Contain(d, Reasons(view.proposals, view.candidates, recent)))
            else if view.selected.None? || view.patch.None? then
              step == Some(SelectPatch(settings, d, view, eligible))
            else if view.writeback.None? then
              step == Some(WriteEvidence(d, view.selected.value, view.patch.value))
            else if !Ready(settings, view.writeback.value) then
              step == Some(NotReady(view.writeback.value))
            else if view.pullRequest.Some? && view.pullRequest.value.integration.status == SUCCEEDED then
              step == if view.state == PATCH_READY then Some(Event(PrOpened(view.pullRequest.value), Some(PR_OPEN)))
                  else None
            else
              step == Some(CreatePullRequest(d, view.patch.value))
  {
    hide Contain, SelectPatch, WriteEvidence, NotReady, CreatePullRequest, Assess;
  }

  // ---- Assessing in proposal order ----

  /** The first proposal without an assessment is the next one to assess. */
  lemma {:induction false} PendingFirst(proposals: seq<Proposal>, candidates: seq<Assessment>, i: nat)
    requires i <= |proposals|
    requires forall j :: 0 <= j < i ==> Assessed(candidates, proposals[j].id).Some?
    requires i < |proposals| ==> Assessed(candidates, proposals[i].id).None?
    ensures if i == |proposals| then Pending(proposals, candidates) == []
            else Pending(proposals, candidates) != [] && Pending(proposals, candidates)[0] == proposals[i]
  {
    if i > 0 {
      assert Assessed(candidates, proposals[0].id).Some?;
      assert forall j :: 0 <= j < i - 1 ==> proposals[1..][j] == proposals[j + 1];
      PendingFirst(proposals[1..], candidates, i - 1);
    }
  }

  /** With every earlier proposal assessed, the run assesses this one. */
  lemma {:induction false} DecidesToAssess(settings: Settings, d: Delivery, events: seq<Event>, context: Context,
        proposals: seq<Proposal>, i: nat, recent: set<string>)
    requires Started(events) && i < |proposals|
    requires InputsReady(settings, Fold(events), context, proposals) && Fold(events).state != CANDIDATES_READY
    requires forall j :: 0 <= j < i ==> Assessed(Fold(events).candidates, proposals[j].id).Some?
    requires Assessed(Fold(events).candidates, proposals[i].id).None?
    ensures Decides(settings, d, events, recent,
                    Event(CandidateAssessed(Assess(settings, d, proposals[i], context)), Some(VALIDATING)))
  {
    PendingFirst(proposals, Fold(events).candidates, i);
    DecidesInOrder(settings, d, events, recent);
    ValidatesInOrder(settings, d, Fold(events), context, recent);
    hide Decide, Validate, Assess, Fold, Eligible, Reasons, Pending, Assessed;
  }

  lemma {:induction false} AssessmentKeepsInputs(settings: Settings, view: View, context: Context,
        proposals: seq<Proposal>, a: Assessment)
    requires InputsReady(settings, view, context, proposals)
    ensures var after := Apply(view, Event(CandidateAssessed(a), Some(VALIDATING)));
            && InputsReady(settings, after, context, proposals) && after.state != CANDIDATES_READY
            && after.candidates == view.candidates + [a]
  {
    ApplyFields(view, Event(CandidateAssessed(a), Some(VALIDATING)));
    hide Apply;
  }

  /** An assessment of another proposal leaves the collected reasons as they are. */
  lemma {:induction false} ReasonsKeep(proposals: seq<Proposal>, candidates: seq<Assessment>, recent: set<string>,
        a: Assessment)
    requires forall p :: p in proposals ==> p.id != a.id
    ensures Reasons(proposals, candidates + [a], recent + {a.id}) == Reasons(proposals, candidates, recent)
  {
    if proposals != [] {
      var last := proposals[|proposals| - 1];
      assert last in proposals;
      ReasonsKeep(proposals[..|proposals| - 1], candidates, recent, a);
      AssessedIsLatest(candidates, a, last.id);
    }
  }

  lemma {:induction false} ReasonsStep(proposals: seq<Proposal>, i: nat, candidates: seq<Assessment>,
        recent: set<string>)
    requires i < |proposals| && Assessed(candidates, proposals[i].id).Some?
    ensures Reasons(proposals[..i + 1], candidates, recent) ==
            Reasons(proposals[..i], candidates, recent)
            + Worded(proposals[i], Policy.FailedNames(Assessed(candidates, proposals[i].id).value.checks),
                proposals[i].id in recent)
  {
    assert proposals[..i + 1][..i] == proposals[..i];
  }

  lemma {:induction false} EligibleStep(proposals: seq<Proposal>, i: nat, candidates: seq<Assessment>)
    requires i < |proposals| && Assessed(candidates, proposals[i].id).Some?
    ensures Eligible(proposals[..i + 1], candidates) ==
            Eligible(proposals[..i], candidates)
            + if Assessed(candidates, proposals[i].id).value.outcome != REJECTED
              then [Assessed(candidates, proposals[i].id).value] else []
  {
    assert proposals[..i + 1][..i] == proposals[..i];
  }

  /** The map holds the latest assessment of every assessed id. */
  ghost predicate IndexOf(byId: map<string, Assessment>, candidates: seq<Assessment>) {
    && (forall id :: id in byId <==> Assessed(candidates, id).Some?)
    && (forall id :: id in byId ==> Assessed(candidates, id) == Some(byId[id]))
  }

  /** What the assessment loop knows before proposal i. */
  ghost predicate Tracked(settings: Settings, view: View, context: Context, proposals: seq<Proposal>, i: nat,
                          recent: set<string>, byId: map<string, Assessment>, reasons: seq<Reason>)
  {
    && i <= |proposals|
    && InputsReady(settings, view, context, proposals) && view.state != CANDIDATES_READY
    && IndexOf(byId, view.candidates)
    && (forall j :: 0 <= j < i ==> proposals[j].id in byId)
    && (forall id :: id in recent ==> exists j :: 0 <= j < i && proposals[j].id == id)
    && reasons == Reasons(proposals[..i], view.candidates, recent)
  }

  lemma {:induction false} TrackingStarts(settings: Settings, view: View, context: Context, proposals: seq<Proposal>)
    requires InputsReady(settings, view, context, proposals) && view.state != CANDIDATES_READY
    ensures Tracked(settings, view, context, proposals, 0, {}, ById(view.candidates), [])
  {
  }

  lemma {:induction false} TrackExisting(settings: Settings, view: View, context: Context, proposals: seq<Proposal>,
        i: nat,
                      recent: set<string>, byId: map<string, Assessment>, reasons: seq<Reason>)
    requires i < |proposals| && Tracked(settings, view, context, proposals, i, recent, byId, reasons)
    requires proposals[i].id in byId
    ensures Tracked(settings, view, context, proposals, i + 1, recent, byId,
                    reasons + Worded(proposals[i], Policy.FailedNames(byId[proposals[i].id].checks), false))
  {
    ReasonsStep(proposals, i, view.candidates, recent);
    assert proposals[i].id !in recent;
    assert forall j :: 0 <= j < i + 1 ==> proposals[j].id in byId;
  }

  lemma {:induction false} TrackMissing(settings: Settings, view: View, context: Context, proposals: seq<Proposal>,
        i: nat,
                     recent: set<string>, byId: map<string, Assessment>, reasons: seq<Reason>)
    requires i < |proposals| && Tracked(settings, view, context, proposals, i, recent, byId, reasons)
    requires proposals[i].id !in byId
    ensures InputsReady(settings, view, context, proposals) && view.state != CANDIDATES_READY
    ensures forall j :: 0 <= j < i ==> Assessed(view.candidates, proposals[j].id).Some?
    ensures Assessed(view.candidates, proposals[i].id).None?
  {
    forall j | 0 <= j < i ensures Assessed(view.candidates, proposals[j].id).Some? {
      assert proposals[j].id in byId;
    }
  }

  lemma {:induction false} DistinctBefore(settings: Settings, view: View, context: Context, proposals: seq<Proposal>,
        i: nat)
    requires i < |proposals| && InputsReady(settings, view, context, proposals)
    ensures forall p :: p in proposals[..i] ==> p.id != proposals[i].id
  {
    forall p | p in proposals[..i] ensures p.id != proposals[i].id {
      var j :| 0 <= j < i && proposals[j] == p;
    }
  }

  lemma {:induction false} TrackNew(settings: Settings, view: View, after: View, context: Context,
        proposals: seq<Proposal>, i: nat,
                 recent: set<string>, byId: map<string, Assessment>, reasons: seq<Reason>, a: Assessment)
    requires i < |proposals| && Tracked(settings, view, context, proposals, i, recent, byId, reasons)
    requires a.id == proposals[i].id && after.candidates == view.candidates + [a]
    requires InputsReady(settings, after, context, proposals) && after.state != CANDIDATES_READY
    ensures Tracked(settings, after, context, proposals, i + 1, recent + {a.id}, byId[a.id := a],
                    reasons + Worded(proposals[i], Policy.FailedNames(a.checks), true))
  {
    hide InputsReady, Assessed, Reasons, Worded, Policy.FailedNames;
    forall id
      ensures Assessed(after.candidates, id) == if id == a.id then Some(a) else Assessed(view.candidates, id)
    {
      AssessedIsLatest(view.candidates, a, id);
    }
    DistinctBefore(settings, after, context, proposals, i);
    ReasonsKeep(proposals[..i], view.candidates, recent, a);
    ReasonsStep(proposals, i, after.candidates, recent + {a.id});
    assert IndexOf(byId[a.id := a], after.candidates);
    forall id | id in recent + {a.id} ensures exists j :: 0 <= j < i + 1 && proposals[j].id == id {
      if id == a.id {
        assert proposals[i].id == id;
      } else {
        var j :| 0 <= j < i && proposals[j].id == id;
      }
    }
  }

  lemma {:induction false} TrackingEnds(settings: Settings, view: View, context: Context, proposals: seq<Proposal>,
                     recent: set<string>, byId: map<string, Assessment>, reasons: seq<Reason>)
    requires Tracked(settings, view, context, proposals, |proposals|, recent, byId, reasons)
    ensures InputsReady(settings, view, context, proposals) && view.state != CANDIDATES_READY
    ensures IndexOf(byId, view.candidates) && (forall p :: p in proposals ==> p.id in byId)
    ensures Pending(proposals, view.candidates) == []
    ensures reasons == Reasons(proposals, view.candidates, recent)
  {
    assert proposals[..|proposals|] == proposals;
    forall j | 0 <= j < |proposals| ensures Assessed(view.candidates, proposals[j].id).Some? {
      assert proposals[j].id in byId;
    }
    PendingFirst(proposals, view.candidates, |proposals|);
  }

  /** Marking the selected candidate keeps every id assessed and every eligible one eligible. */
  lemma {:induction false} ReplaceKeepsAssessed(candidates: seq<Assessment>, selected: Assessment, id: string)
    ensures Assessed(ReplaceAssessment(candidates, selected), id) ==
            if Assessed(candidates, id).Some? && id == selected.id then Some(selected) else Assessed(candidates, id)
  {
    if candidates != [] {
      var init := candidates[..|candidates| - 1];
      var after := ReplaceAssessment(candidates, selected);
      assert after[..|after| - 1] == ReplaceAssessment(init, selected);
      ReplaceKeepsAssessed(init, selected, id);
    }
  }

  lemma {:induction false} ReplaceKeepsPending(proposals: seq<Proposal>, candidates: seq<Assessment>,
        selected: Assessment)
    ensures Pending(proposals, ReplaceAssessment(candidates, selected)) == Pending(proposals, candidates)
  {
    if proposals != [] {
      ReplaceKeepsAssessed(candidates, selected, proposals[0].id);
      ReplaceKeepsPending(proposals[1..], candidates, selected);
    }
  }

  lemma {:induction false} ReplaceKeepsEligible(proposals: seq<Proposal>, candidates: seq<Assessment>,
        selected: Assessment)
    requires selected.outcome == SELECTED
    ensures |Eligible(proposals, ReplaceAssessment(candidates, selected))| >= |Eligible(proposals, candidates)|
  {
    if proposals != [] {
      ReplaceKeepsAssessed(candidates, selected, proposals[|proposals| - 1].id);
      ReplaceKeepsEligible(proposals[..|proposals| - 1], candidates, selected);
    }
  }

  /** The log grew by events of this case only. */
  ghost predicate Grew(rows: seq<Row>, after: seq<Row>, caseId: string) {
    && CaseStream(rows, caseId) <= CaseStream(after, caseId)
    && Extended(rows, after, caseId, CaseStream(after, caseId)[|CaseStream(rows, caseId)|..])
  }

  lemma {:induction false} ExtendedGrew(rows: seq<Row>, after: seq<Row>, caseId: string, events: seq<Event>)
    requires Extended(rows, after, caseId, events)
    ensures Grew(rows, after, caseId)
  {
    assert CaseStream(after, caseId)[|CaseStream(rows, caseId)|..] == events;
  }

  lemma {:induction false} GrewReflexive(rows: seq<Row>, caseId: string)
    requires ValidLog(rows)
    ensures Grew(rows, rows, caseId)
  {
    ExtendedGrew(rows, rows, caseId, []);
  }

  lemma {:induction false} GrewTransitive(a: seq<Row>, b: seq<Row>, c: seq<Row>, caseId: string)
    requires Grew(a, b, caseId) && Grew(b, c, caseId)
    ensures Grew(a, c, caseId)
  {
    var first := CaseStream(b, caseId)[|CaseStream(a, caseId)|..];
    var second := CaseStream(c, caseId)[|CaseStream(b, caseId)|..];
    ExtendedTransitive(a, b, c, caseId, first, second);
    ExtendedGrew(a, c, caseId, first + second);
  }

  lemma {:induction false} GrewKeepsStarted(rows: seq<Row>, after: seq<Row>, caseId: string)
    requires Grew(rows, after, caseId)
    ensures CaseStream(rows, caseId) <= CaseStream(after, caseId)
    ensures Started(CaseStream(rows, caseId)) ==> Started(CaseStream(after, caseId))
  {
  }

  lemma {:induction false} StreamExists(rows: seq<Row>, caseId: string)
    ensures CaseIdExists(rows, caseId) <==> CaseStream(rows, caseId) != []
  {
  }

  lemma {:induction false} MovesTo(view: View, event: Event)
    requires event.state.Some?
    ensures Apply(view, event).state == event.state.value
  {
    ApplyFields(view, event);
  }

  /** How a part of an advance ends: go on, return, or raise. */
  datatype Progress = Continue | Done | Raised

  /** What a run's log comes to, given how the call ended: a raise still has to be recorded. */
  ghost function Ended(progress: Progress, events: seq<Event>): seq<Event> {
    if progress == Raised then events + [CRASH] else events
  }

  /** The inputs of validation are complete and are those of the case. */
  ghost predicate InputsReady(settings: Settings, view: View, context: Context, proposals: seq<Proposal>) {
    && view.state in RESUMABLE
    && view.incident.Some? && Ready(settings, view.incident.value)
    && view.context == Some(context) && Complete(context)
    && view.generation.Some? && Ready(settings, view.generation.value)
    && view.proposals == proposals != [] && DistinctIds(proposals)
  }

  /** Every proposal is assessed and some are eligible. */
  ghost predicate AllAssessed(settings: Settings, view: View, context: Context, proposals: seq<Proposal>) {
    && InputsReady(settings, view, context, proposals) && view.state != CANDIDATES_READY
    && Pending(proposals, view.candidates) == [] && Eligible(proposals, view.candidates) != []
  }

  lemma {:induction false} AllAssessedMeans(settings: Settings, view: View, context: Context, proposals: seq<Proposal>)
    requires AllAssessed(settings, view, context, proposals)
    ensures view.state in RESUMABLE && view.proposals == proposals && Eligible(proposals, view.candidates) != []
  {
  }

  lemma {:induction false} WritebackKeepsAssessed(settings: Settings, view: View, context: Context,
        proposals: seq<Proposal>, writeback: Integration)
    requires AllAssessed(settings, view, context, proposals)
    ensures var after := Apply(view, Event(EvidenceWritten(writeback), Some(PATCH_READY)));
            && AllAssessed(settings, after, context, proposals)
            && after.selected == view.selected && after.patch == view.patch && after.writeback == Some(writeback)
  {
    ApplyFields(view, Event(EvidenceWritten(writeback), Some(PATCH_READY)));
  }

  lemma {:induction false} PatchKeepsAssessed(settings: Settings, view: View, context: Context,
        proposals: seq<Proposal>, selected: Assessment, patch: Patch)
    requires AllAssessed(settings, view, context, proposals) && selected.outcome == SELECTED
    ensures var after := Apply(view, Event(PatchReady(selected, patch), Some(PATCH_READY)));
            && AllAssessed(settings, after, context, proposals)
            && after.selected == Some(selected) && after.patch == Some(patch)
  {
    ApplyFields(view, Event(PatchReady(selected, patch), Some(PATCH_READY)));
    ReplaceKeepsPending(proposals, view.candidates, selected);
    ReplaceKeepsEligible(proposals, view.candidates, selected);
  }

  /** Past assessment, what `Decide` comes to. */
  lemma {:induction false} DecidesToShip(settings: Settings, d: Delivery, events: seq<Event>, context: Context,
        proposals: seq<Proposal>, recent: set<string>)
    requires Started(events) && AllAssessed(settings, Fold(events), context, proposals)
    ensures var view := Fold(events);
            if view.selected.None? || view.patch.None? then
              Decides(settings, d, events, recent, SelectPatch(settings, d, view, Eligible(proposals, view.candidates)))
            else if view.writeback.None? then
              Decides(settings, d, events, recent, WriteEvidence(d, view.selected.value, view.patch.value))
            else if !Ready(settings, view.writeback.value) then
              Decides(settings, d, events, recent, NotReady(view.writeback.value))
            else if view.pullRequest.Some? && view.pullRequest.value.integration.status == SUCCEEDED then
              if view.state == PATCH_READY then
                Decides(settings, d, events, recent, Event(PrOpened(view.pullRequest.value), Some(PR_OPEN)))
              else Decide(settings, d, view, recent).None?
            else
              Decides(settings, d, events, recent, CreatePullRequest(d, view.patch.value))
  {
    hide Decide, Validate, SelectPatch, WriteEvidence, NotReady, CreatePullRequest;
    DecidesInOrder(settings, d, events, recent);
    ValidatesInOrder(settings, d, Fold(events), context, recent);
  }

  /** A call that raised was stopped where it could still go on. */
  lemma {:induction false} RaisedIsResumable(settings: Settings, d: Delivery, events: seq<Event>, stream: seq<Event>)
    requires Started(events) && events <= stream && Run(settings, d, events, {}) == stream + [CRASH]
    ensures Started(stream) && Fold(stream).state in RESUMABLE
  {
    hide Run, Decide, Fold, Checked;
    var run := Run(settings, d, events, {});
    var middle := RunPrefix(settings, d, events, {}, |stream|);
    assert run[..|stream|] == stream;
  }
}
