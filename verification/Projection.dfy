/** The projection of a case's events to its snapshot. */
module Projection {
  import opened Model
  import opened StateMachine
  import opened Log

  /** Everything a snapshot holds that later decisions read. */
  datatype View = View(
    state: CaseState,
    change: SchemaChange,
    incidentUrn: string,
    incidentResolved: bool,
    incident: Option<Integration>,
    context: Option<Context>,
    generation: Option<Integration>,
    proposals: seq<Proposal>,
    candidates: seq<Assessment>,
    selected: Option<Assessment>,
    patch: Option<Patch>,
    writeback: Option<Integration>,
    pullRequest: Option<PullRequest>,
    reasons: seq<Reason>,
    deploymentCommit: Option<string>)

  datatype Snapshot = Snapshot(id: string, view: View, createdAt: int, updatedAt: int, events: seq<Row>)

  predicate Started(events: seq<Event>) {
    events != [] && events[0].body.SchemaChangeDetected?
  }

  function Initial(first: Event): View
    requires first.body.SchemaChangeDetected?
  {
    View(DETECTED, first.body.change, first.body.incidentUrn, false,
         None, None, None, [], [], None, None, None, None, [], None)
  }

  function ReplaceAssessment(assessments: seq<Assessment>, selected: Assessment): seq<Assessment> {
    seq(|assessments|, i requires 0 <= i < |assessments| =>
      if assessments[i].id == selected.id then selected else assessments[i])
  }

  /** One event's effect on the view, apart from its state. */
  function Absorb(view: View, body: Body): View {
    match body
    case IncidentRaised(incident) =>
      var raised := view.(incident := Some(incident));
      if incident.resourceId.Some? && incident.resourceId.value != ""
      then raised.(incidentUrn := incident.resourceId.value) else raised
    case ContextGathered(context) => view.(context := Some(context))
    case CandidatesReady(proposals, generation) =>
      view.(generation := Some(generation), proposals := proposals)
    case CandidateAssessed(assessment) => view.(candidates := view.candidates + [assessment])
    case PatchReady(selected, patch) =>
      view.(selected := Some(selected),
            candidates := ReplaceAssessment(view.candidates, selected),
            patch := Some(patch))
    case EvidenceWritten(evidence) => view.(writeback := Some(evidence))
    case PrAttempted(attempt) => view.(pullRequest := Some(attempt))
    case PrOpened(draft) => view.(pullRequest := Some(draft))
    case DeploymentRecorded(commit, _) => view.(deploymentCommit := Some(commit))
    case IncidentResolved(_) => view.(incidentResolved := true)
    case CaseContained(reasons, writeback) =>
      view.(incidentResolved := false, reasons := reasons, writeback := Some(writeback))
    case _ => view
  }

  function Apply(view: View, event: Event): View {
    var moved := if event.state.Some? then view.(state := event.state.value) else view;
    Absorb(moved, event.body)
  }

  function Fold(events: seq<Event>): View
    requires Started(events)
  {
    if |events| == 1 then Apply(Initial(events[0]), events[0])
    else Apply(Fold(events[..|events| - 1]), events[|events| - 1])
  }

  lemma {:induction false} FoldStep(events: seq<Event>, event: Event)
    requires Started(events)
    ensures Started(events + [event])
    ensures Fold(events + [event]) == Apply(Fold(events), event)
  {
    assert (events + [event])[..|events|] == events;
  }

  /** The view after the first n rows; before any, the initial one. */
  ghost function ViewAfter(rows: seq<Row>, n: nat): View
    requires n <= |rows| && rows != [] && rows[0].event.body.SchemaChangeDetected?
  {
    if n == 0 then Initial(rows[0].event) else Fold(Events(rows[..n]))
  }

  lemma {:induction false} ViewAfterStep(rows: seq<Row>, n: nat)
    requires n < |rows| && rows[0].event.body.SchemaChangeDetected?
    ensures ViewAfter(rows, n + 1) == Apply(ViewAfter(rows, n), rows[n].event)
  {
    if n > 0 {
      assert Events(rows[..n + 1]) == Events(rows[..n]) + [rows[n].event];
      FoldStep(Events(rows[..n]), rows[n].event);
    }
  }

  /** The snapshot of a case's rows, or nothing when they do not begin with a detection. */
  function Project(rows: seq<Row>): Option<Snapshot> {
    if Started(Events(rows)) then
      Some(Snapshot(rows[0].caseId, Fold(Events(rows)), rows[0].createdAt, rows[|rows| - 1].createdAt, rows))
    else None
  }

  /** A snapshot has the id and the first and last times of its rows, and the rows themselves. */
  lemma {:induction false} SnapshotMeans(rows: seq<Row>)
    ensures Project(rows).Some? <==> rows != [] && rows[0].event.body.SchemaChangeDetected?
    ensures Project(rows).Some? ==>
      var snapshot := Project(rows).value;
      && snapshot.id == rows[0].caseId
      && snapshot.createdAt == rows[0].createdAt && snapshot.updatedAt == rows[|rows| - 1].createdAt
      && snapshot.events == rows
      && (rows[|rows| - 1].event.state.Some? ==> snapshot.view.state == rows[|rows| - 1].event.state.value)
      && ViewMatches(snapshot.view, rows[0].event.body, Events(rows))
  {
    if Project(rows).Some? {
      FoldMeaning(Events(rows));
      FoldState(Events(rows));
    }
  }

  /** The fold over the events, field by field, as the projection runs it. */
  method ProjectCase(rows: seq<Row>) returns (snapshot: Option<Snapshot>)
    ensures snapshot == Project(rows)
  {
    if rows == [] || !rows[0].event.body.SchemaChangeDetected? {
      return None;
    }
    var first := rows[0];
    var view := Initial(first.event);
    var updatedAt := first.createdAt;
    var events: seq<Row> := [];
    for i := 0 to |rows|
      invariant events == rows[..i]
      invariant view == ViewAfter(rows, i)
      invariant updatedAt == if i == 0 then first.createdAt else rows[i - 1].createdAt
    {
      var event := rows[i].event;
      ViewAfterStep(rows, i);
      if event.state.Some? {
        view := view.(state := event.state.value);
      }
      updatedAt := rows[i].createdAt;
      events := events + [rows[i]];
      if event.body.IncidentRaised? {
        view := view.(incident := Some(event.body.incident));
        if event.body.incident.resourceId.Some? && event.body.incident.resourceId.value != "" {
          view := view.(incidentUrn := event.body.incident.resourceId.value);
        }
      } else if event.body.ContextGathered? {
        view := view.(context := Some(event.body.context));
      } else if event.body.CandidatesReady? {
        view := view.(generation := Some(event.body.generation), proposals := event.body.proposals);
      } else if event.body.CandidateAssessed? {
        view := view.(candidates := view.candidates + [event.body.assessment]);
      } else if event.body.PatchReady? {
        var selected := event.body.selected;
        view := view.(selected := Some(selected), candidates := ReplaceAssessment(view.candidates, selected));
        view := view.(patch := Some(event.body.patch));
      } else if event.body.EvidenceWritten? {
        view := view.(writeback := Some(event.body.evidence));
      } else if event.body.PrAttempted? {
        view := view.(pullRequest := Some(event.body.attempt));
      } else if event.body.PrOpened? {
        view := view.(pullRequest := Some(event.body.draft));
      } else if event.body.DeploymentRecorded? {
        view := view.(deploymentCommit := Some(event.body.commit));
      } else if event.body.IncidentResolved? {
        view := view.(incidentResolved := true);
      } else if event.body.CaseContained? {
        view := view.(incidentResolved := false, reasons := event.body.reasons);
        view := view.(writeback := Some(event.body.writeback));
      }
    }
    assert rows[..|rows|] == rows;
    snapshot := Some(Snapshot(first.caseId, view, first.createdAt, updatedAt, events));
  }

  // ---- What the projection means, without the fold ----

  /** The last value that `pick` finds in the events. */
  function Latest<T>(events: seq<Event>, pick: Body -> Option<T>): Option<T> {
    if events == [] then None
    else
      var last := pick(events[|events| - 1].body);
      if last.Some? then last else Latest(events[..|events| - 1], pick)
  }

  function PickIncident(body: Body): Option<Integration> {
    if body.IncidentRaised? then Some(body.incident) else None
  }

  function PickContext(body: Body): Option<Context> {
    if body.ContextGathered? then Some(body.context) else None
  }

  function PickGeneration(body: Body): Option<(seq<Proposal>, Integration)> {
    if body.CandidatesReady? then Some((body.proposals, body.generation)) else None
  }

  function PickPatch(body: Body): Option<(Assessment, Patch)> {
    if body.PatchReady? then Some((body.selected, body.patch)) else None
  }

  function PickWriteback(body: Body): Option<Integration> {
    match body
    case EvidenceWritten(evidence) => Some(evidence)
    case CaseContained(_, writeback) => Some(writeback)
    case _ => None
  }

  function PickPullRequest(body: Body): Option<PullRequest> {
    match body
    case PrAttempted(attempt) => Some(attempt)
    case PrOpened(draft) => Some(draft)
    case _ => None
  }

  /** The incident a raised one names, when it names any. */
  function PickUrn(body: Body): Option<string> {
    if body.IncidentRaised? && body.incident.resourceId.Some? && body.incident.resourceId.value != ""
    then body.incident.resourceId else None
  }

  function PickCommit(body: Body): Option<string> {
    if body.DeploymentRecorded? then Some(body.commit) else None
  }

  function PickResolved(body: Body): Option<bool> {
    if body.IncidentResolved? then Some(true) else if body.CaseContained? then Some(false) else None
  }

  function PickReasons(body: Body): Option<seq<Reason>> {
    if body.CaseContained? then Some(body.reasons) else None
  }

  function AssessedIds(events: seq<Event>): seq<string> {
    if events == [] then []
    else
      var rest := AssessedIds(events[..|events| - 1]);
      var body := events[|events| - 1].body;
      if body.CandidateAssessed? then rest + [body.assessment.id] else rest
  }

  function Ids(assessments: seq<Assessment>): (ids: seq<string>)
    ensures |ids| == |assessments|
  {
    seq(|assessments|, i requires 0 <= i < |assessments| => assessments[i].id)
  }

  function Or<T>(found: Option<T>, otherwise: Option<T>): Option<T> {
    if found.Some? then found else otherwise
  }

  ghost predicate ViewMatches(view: View, first: Body, events: seq<Event>)
    requires first.SchemaChangeDetected?
  {
    && view.change == first.change
    && view.incidentUrn == Or(Latest(events, PickUrn), Some(first.incidentUrn)).value
    && view.deploymentCommit == Latest(events, PickCommit)
    && view.incidentResolved == Or(Latest(events, PickResolved), Some(false)).value
    && view.reasons == Or(Latest(events, PickReasons), Some([])).value
    && view.incident == Latest(events, PickIncident)
    && view.context == Latest(events, PickContext)
    && (var generated := Latest(events, PickGeneration);
        if generated.Some? then view.proposals == generated.value.0 && view.generation == Some(generated.value.1)
        else view.proposals == [] && view.generation.None?)
    && (var patched := Latest(events, PickPatch);
        if patched.Some? then view.selected == Some(patched.value.0) && view.patch == Some(patched.value.1)
        else view.selected.None? && view.patch.None?)
    && view.writeback == Latest(events, PickWriteback)
    && view.pullRequest == Latest(events, PickPullRequest)
    && Ids(view.candidates) == AssessedIds(events)
  }

  lemma {:induction false} LatestStep<T>(events: seq<Event>, event: Event, pick: Body -> Option<T>)
    ensures Latest(events + [event], pick) ==
            if pick(event.body).Some? then pick(event.body) else Latest(events, pick)
  {
    assert (events + [event])[..|events|] == events;
  }

  lemma {:induction false} AssessedIdsStep(view: View, events: seq<Event>, event: Event)
    requires Ids(view.candidates) == AssessedIds(events)
    ensures Ids(Apply(view, event).candidates) == AssessedIds(events + [event])
  {
    assert (events + [event])[..|events|] == events;
    match event.body
    case CandidateAssessed(assessment) =>
      assert Ids(view.candidates + [assessment]) == Ids(view.candidates) + [assessment.id];
    case PatchReady(selected, _) =>
      assert Ids(ReplaceAssessment(view.candidates, selected)) == Ids(view.candidates);
    case _ =>
  }

  /** Each event touches only the fields it records. */
  lemma {:induction false} ApplyFields(view: View, event: Event)
    ensures event.state.Some? ==> Apply(view, event).state == event.state.value
    ensures Apply(view, event).change == view.change
    ensures Apply(view, event).incidentUrn == Or(PickUrn(event.body), Some(view.incidentUrn)).value
    ensures Apply(view, event).deploymentCommit == Or(PickCommit(event.body), view.deploymentCommit)
    ensures Apply(view, event).incidentResolved == Or(PickResolved(event.body), Some(view.incidentResolved)).value
    ensures Apply(view, event).reasons == Or(PickReasons(event.body), Some(view.reasons)).value
    ensures Apply(view, event).incident == Or(PickIncident(event.body), view.incident)
    ensures Apply(view, event).context == Or(PickContext(event.body), view.context)
    ensures Apply(view, event).writeback == Or(PickWriteback(event.body), view.writeback)
    ensures Apply(view, event).pullRequest == Or(PickPullRequest(event.body), view.pullRequest)
    ensures var generated := PickGeneration(event.body);
            if generated.None? then
              Apply(view, event).generation == view.generation && Apply(view, event).proposals == view.proposals
            else
              Apply(view, event).generation == Some(generated.value.1)
                  && Apply(view, event).proposals == generated.value.0
    ensures var patched := PickPatch(event.body);
            if patched.None? then
              Apply(view, event).selected == view.selected && Apply(view, event).patch == view.patch
            else
              Apply(view, event).selected == Some(patched.value.0) && Apply(view, event).patch == Some(patched.value.1)
    ensures Apply(view, event).candidates ==
            match event.body
            case CandidateAssessed(assessment) => view.candidates + [assessment]
            case PatchReady(selected, _) => ReplaceAssessment(view.candidates, selected)
            case _ => view.candidates
  {
  }

  lemma {:induction false} ViewMatchesStep(view: View, first: Body, events: seq<Event>, event: Event)
    requires first.SchemaChangeDetected? && ViewMatches(view, first, events)
    ensures ViewMatches(Apply(view, event), first, events + [event])
  {
    AssessedIdsStep(view, events, event);
    ApplyFields(view, event);
    LatestStep(events, event, PickUrn);
    LatestStep(events, event, PickCommit);
    LatestStep(events, event, PickResolved);
    LatestStep(events, event, PickReasons);
    LatestStep(events, event, PickIncident);
    LatestStep(events, event, PickContext);
    LatestStep(events, event, PickGeneration);
    LatestStep(events, event, PickPatch);
    LatestStep(events, event, PickWriteback);
    LatestStep(events, event, PickPullRequest);
    hide Apply, Latest, AssessedIds, Ids, PickUrn, PickCommit, PickResolved, PickReasons, PickIncident, PickContext,
      PickGeneration, PickPatch, PickWriteback, PickPullRequest;
  }

  /** Each field is the last one recorded, or the detection's; the candidates keep the order of
      assessment. */
  lemma {:induction false} FoldMeaning(events: seq<Event>)
    requires Started(events)
    ensures ViewMatches(Fold(events), events[0].body, events)
    ensures Fold(events).change == events[0].body.change
  {
    hide ViewMatches, Apply, Initial;
    var init, last := events[..|events| - 1], events[|events| - 1];
    assert events == init + [last];
    if |events| > 1 {
      FoldMeaning(init);
      ViewMatchesStep(Fold(init), events[0].body, init, last);
    } else {
      InitialMatches(events[0]);
      ViewMatchesStep(Initial(events[0]), events[0].body, [], events[0]);
    }
    MatchesChange(Fold(events), events[0].body, events);
  }

  lemma {:induction false} MatchesChange(view: View, first: Body, events: seq<Event>)
    requires first.SchemaChangeDetected? && ViewMatches(view, first, events)
    ensures view.change == first.change
  {
  }

  lemma {:induction false} InitialMatches(first: Event)
    requires first.body.SchemaChangeDetected?
    ensures ViewMatches(Initial(first), first.body, [])
  {
  }

  // ---- The candidates, one by one ----

  /** The selection of a candidate with this id, if the event is one. */
  function PickSelected(id: string): Body -> Option<Assessment> {
    (body: Body) => if body.PatchReady? && body.selected.id == id then Some(body.selected) else None
  }

  /** The candidate that event j assessed: as it was last selected since, or as it was assessed. */
  ghost predicate CandidateMatches(candidate: Assessment, events: seq<Event>, j: nat) {
    && j < |events|
    && events[j].body.CandidateAssessed?
    && var assessed := events[j].body.assessment;
       candidate == Or(Latest(events[j..], PickSelected(assessed.id)), Some(assessed)).value
  }

  /** The candidates are those of exactly the assessing events, in their order. */
  ghost predicate CandidatesMatch(candidates: seq<Assessment>, events: seq<Event>, at: seq<nat>) {
    && |at| == |candidates|
    && (forall i, k :: 0 <= i < k < |at| ==> at[i] < at[k])
    && (forall i :: 0 <= i < |at| ==> CandidateMatches(candidates[i], events, at[i]))
    && (forall j: nat :: j < |events| && events[j].body.CandidateAssessed? ==> j in at)
  }

  lemma {:induction false} CandidateMatchesStep(candidate: Assessment, events: seq<Event>, event: Event, j: nat)
    requires CandidateMatches(candidate, events, j)
    ensures var after := if event.body.PatchReady? && event.body.selected.id == candidate.id then event.body.selected
                         else candidate;
            CandidateMatches(after, events + [event], j)
    ensures candidate.id == events[j].body.assessment.id
  {
    var id := events[j].body.assessment.id;
    LatestStep(events[j..], event, PickSelected(id));
    assert (events + [event])[j..] == events[j..] + [event];
    LatestSelectedId(events[j..], id);
  }

  lemma {:induction false} LatestSelectedId(events: seq<Event>, id: string)
    ensures var found := Latest(events, PickSelected(id));
            found.Some? ==> found.value.id == id
  {
    if events != [] {
      LatestSelectedId(events[..|events| - 1], id);
    }
  }

  lemma {:induction false} AssessedMatches(events: seq<Event>, event: Event)
    requires event.body.CandidateAssessed?
    ensures CandidateMatches(event.body.assessment, events + [event], |events|)
  {
    assert (events + [event])[|events|..] == [event];
    assert Latest([event], PickSelected(event.body.assessment.id)) == Latest([event][..0],
        PickSelected(event.body.assessment.id));
  }

  /** What an event does to the list of candidates. */
  lemma {:induction false} CandidatesMatchStep(view: View, events: seq<Event>, event: Event, at: seq<nat>)
    returns (next: seq<nat>)
    requires CandidatesMatch(view.candidates, events, at)
    ensures CandidatesMatch(Apply(view, event).candidates, events + [event], next)
  {
    ApplyFields(view, event);
    hide Apply;
    hide CandidateMatches;
    var after := Apply(view, event).candidates;
    var longer := events + [event];
    next := if event.body.CandidateAssessed? then at + [|events|] else at;
    forall i | 0 <= i < |at| ensures at[i] < |events| && CandidateMatches(after[i], longer, at[i]) {
      CandidateMatchesStep(view.candidates[i], events, event, at[i]);
      MatchInRange(view.candidates[i], events, at[i]);
    }
    if event.body.CandidateAssessed? {
      AssessedMatches(events, event);
      assert next[|at|] == |events|;
    }
    forall j: nat | j < |longer| && longer[j].body.CandidateAssessed? ensures j in next {
      if j < |events| {
        assert longer[j] == events[j] && j in at;
      }
    }
  }

  lemma {:induction false} MatchInRange(candidate: Assessment, events: seq<Event>, j: nat)
    requires CandidateMatches(candidate, events, j)
    ensures j < |events|
  {
  }

  lemma {:induction false} FoldCandidates(events: seq<Event>) returns (at: seq<nat>)
    requires Started(events)
    ensures CandidatesMatch(Fold(events).candidates, events, at)
  {
    hide CandidatesMatch, Apply, Initial;
    var init, last := events[..|events| - 1], events[|events| - 1];
    assert events == init + [last];
    if |events| > 1 {
      at := FoldCandidates(init);
      at := CandidatesMatchStep(Fold(init), init, last, at);
    } else {
      NoCandidates(events[0]);
      at := CandidatesMatchStep(Initial(events[0]), [], last, []);
    }
  }

  lemma {:induction false} NoCandidates(first: Event)
    requires first.body.SchemaChangeDetected?
    ensures CandidatesMatch(Initial(first).candidates, [], [])
  {
  }

  /** `selected` stands at position k and nothing else in the list is marked selected. */
  ghost predicate OnlySelected(assessments: seq<Assessment>, selected: Assessment, k: nat) {
    && k < |assessments|
    && assessments[k] == selected
    && forall i :: 0 <= i < |assessments| && assessments[i].outcome == SELECTED ==> i == k
  }

  /** Replacing an assessment keeps ids and order, and when ids are distinct and none was
      selected before, leaves exactly one selected entry: the replacement. */
  lemma {:induction false} ReplaceSelectsOne(assessments: seq<Assessment>, selected: Assessment)
    requires forall i, j :: 0 <= i < j < |assessments| ==> assessments[i].id != assessments[j].id
    requires forall a :: a in assessments ==> a.outcome != SELECTED
    requires selected.outcome == SELECTED && selected.id in Ids(assessments)
    ensures Ids(ReplaceAssessment(assessments, selected)) == Ids(assessments)
    ensures exists k :: OnlySelected(ReplaceAssessment(assessments, selected), selected, k)
  {
    var k :| 0 <= k < |assessments| && Ids(assessments)[k] == selected.id;
    var after := ReplaceAssessment(assessments, selected);
    assert after[k] == selected;
    forall i | 0 <= i < |after| && after[i].outcome == SELECTED ensures i == k {
      assert assessments[i] in assessments;
    }
    assert OnlySelected(after, selected, k);
  }

  // ---- The projected state ----

  /** Every row of a case past the latest reset carries a state. */
  lemma {:induction false} ActiveRowsHaveStates(rows: seq<Row>, caseId: string, n: nat, floor: nat)
    requires ValidLog(rows) && n <= |rows| && floor >= CurrentScope(rows)
    ensures forall row :: row in Select(rows[..n], caseId, floor) ==> row.event.state.Some?
  {
    if n > 0 {
      assert rows[..n][..n - 1] == rows[..n - 1];
      ActiveRowsHaveStates(rows, caseId, n - 1, floor);
      PrefixIsValid(rows, n - 1);
      if rows[n - 1].event.state.None? {
        ResetIsNotActive(rows, n - 1);
      }
    }
  }

  lemma {:induction false} ResetIsNotActive(rows: seq<Row>, i: nat)
    requires ValidLog(rows) && i < |rows| && rows[i].event.body.SystemReset?
    ensures rows[i].sequence <= CurrentScope(rows)
  {
    var init := rows[..|rows| - 1];
    if i < |init| {
      ResetIsNotActive(init, i);
    }
  }

  /** The state a row-by-row query would find is the state of the last active row. */
  lemma {:induction false} SelectEndsInState(rows: seq<Row>, caseId: string, n: nat, scope: nat)
    requires ValidLog(rows) && n <= |rows| && scope == CurrentScope(rows)
    ensures var active := Select(rows[..n], caseId, scope);
            CurrentState(rows[..n], caseId, scope) ==
            if active == [] then None else active[|active| - 1].event.state
  {
    ActiveRowsHaveStates(rows, caseId, n, scope);
    if n > 0 {
      assert rows[..n][..n - 1] == rows[..n - 1];
      SelectEndsInState(rows, caseId, n - 1, scope);
      var rest := Select(rows[..n - 1], caseId, scope);
      if rows[n - 1].caseId == caseId && rows[n - 1].sequence > scope {
        assert rows[n - 1] in Select(rows[..n], caseId, scope);
      }
    }
  }

  /** Whenever a case can be projected, its projected state is its current state. */
  lemma {:induction false} ProjectedStateIsCurrent(rows: seq<Row>, caseId: string)
    requires ValidLog(rows)
    requires Project(EventsForCase(rows, caseId, 0)).Some?
    ensures Some(Project(EventsForCase(rows, caseId, 0)).value.view.state)
            == CurrentState(rows, caseId, CurrentScope(rows))
  {
    var scope := CurrentScope(rows);
    assert rows[..|rows|] == rows;
    SelectEndsInState(rows, caseId, |rows|, scope);
    ActiveRowsHaveStates(rows, caseId, |rows|, scope);
    var active := EventsForCase(rows, caseId, 0);
    assert active[|active| - 1] in active;
    FoldState(Events(active));
  }

  lemma {:induction false} FoldState(events: seq<Event>)
    requires Started(events)
    ensures events[|events| - 1].state.Some? ==> Fold(events).state == events[|events| - 1].state.value
  {
    var n := |events| - 1;
    ApplyFields(if n == 0 then Initial(events[0]) else Fold(events[..n]), events[n]);
    hide Apply;
  }
}
