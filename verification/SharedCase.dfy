/** One case driven by several processes at once, each deciding on what it read earlier.

    The worker lock is the lock of one process. A redelivery in a second process finds the case
    resumable and not its own, and advances it as well; so may a post-deploy verification be called
    twice. Here any number of such calls interleave on the stream of one case. A call keeps what it
    read in memory: before each append it may have read some parts of the case again and others
    not. The store accepts an append exactly when the transition from the state it finds is valid.
 */
module SharedCase {
  import opened Model
  import opened StateMachine
  import opened Projection
  import opened Recovery
  import opened CaseHistory
  import Deployment
  import Policy

  // ---- Calls on one case ----

  /** An advance with the case as it knows it; or a verification, by how long the stream was when
      it read it and where its appends so far have landed; or a call about to record its failure. */
  datatype Driver =
    | Idle
    | Advancing(known: View, recent: set<string>)
    | Failing
    | Verifying(caseId: string, w: Deployment.Adapters, request: Deployment.Request, read: nat, at: seq<nat>)

  datatype System = System(events: seq<Event>, drivers: seq<Driver>)

  datatype Step =
    | StartAdvance(p: nat)
    | Refresh(p: nat, known: View)
    | Act(p: nat, d: Delivery)
    | Fail(p: nat)
    | StartVerify(p: nat, caseId: string, w: Deployment.Adapters, request: Deployment.Request)
    | Close(p: nat)
    | Kill(p: nat)

  /** Each field is one of the two views'. */
  predicate Mixes(known: View, current: View, next: View) {
    && (next.state == known.state || next.state == current.state)
    && (next.incident == known.incident || next.incident == current.incident)
    && (next.context == known.context || next.context == current.context)
    && (next.generation == known.generation || next.generation == current.generation)
    && (next.proposals == known.proposals || next.proposals == current.proposals)
    && (next.candidates == known.candidates || next.candidates == current.candidates)
    && (next.selected == known.selected || next.selected == current.selected)
    && (next.patch == known.patch || next.patch == current.patch)
    && (next.writeback == known.writeback || next.writeback == current.writeback)
    && (next.pullRequest == known.pullRequest || next.pullRequest == current.pullRequest)
  }

  predicate Accepts(events: seq<Event>, event: Event)
    requires Started(events)
  {
    event.state.Some? && ValidTransition(Some(Fold(events).state), event.state.value)
  }

  /** What an advance does next goes by what it knows; a refused append makes it fail. */
  function Acted(settings: Settings, events: seq<Event>, d: Delivery, known: View, recent: set<string>): (seq<Event>,
        Driver)
    requires Started(events)
  {
    match Decide(settings, d, known, recent)
    case None => (events, Idle)
    case Some(event) =>
      if !Accepts(events, event) then (events, Failing)
      else if event.state.value !in RESUMABLE || event.body.PrAttempted? then (events + [event], Idle)
      else (events + [event], Advancing(Apply(known, event), RecentAfter(recent, event)))
  }

  function ClosingOf(settings: Settings, events: seq<Event>, v: Driver): seq<Event>
    requires v.Verifying? && v.read <= |events| && Started(events[..v.read])
  {
    Deployment.Verify(settings, v.caseId, v.w, Fold(events[..v.read]), v.request).events
  }

  /** A verification appends its next event; a refused append ends it. */
  function Closed(settings: Settings, events: seq<Event>, v: Driver): (seq<Event>, Driver)
    requires v.Verifying? && Started(events)
  {
    if v.read > |events| || !Started(events[..v.read]) then (events, Idle)
    else
      var closing := ClosingOf(settings, events, v);
      if |v.at| >= |closing| || !Accepts(events, closing[|v.at|]) then (events, Idle)
      else (events + [closing[|v.at|]], v.(at := v.at + [|events|]))
  }

  /** What the step of one driver comes to; a step that is not enabled changes nothing. */
  function Stepped(settings: Settings, events: seq<Event>, driver: Driver, step: Step): (seq<Event>, Driver)
    requires Started(events)
  {
    match step {
      case StartAdvance(_) =>
        if driver.Idle? && Fold(events).state in RESUMABLE then (events, Advancing(Fold(events), {}))
        else (events, driver)
      case Refresh(_, known) =>
        if driver.Advancing? && Mixes(driver.known, Fold(events), known)
        then (events, Advancing(known, driver.recent)) else (events, driver)
      case Act(_, d) =>
        if driver.Advancing? then Acted(settings, events, d, driver.known, driver.recent) else (events, driver)
      case Fail(_) =>
        if driver.Failing? then ((if Accepts(events, CRASH) then events + [CRASH] else events), Idle)
        else (events, driver)
      case StartVerify(_, caseId, w, request) =>
        if driver.Idle? then (events, Verifying(caseId, w, request, |events|, [])) else (events, driver)
      case Close(_) =>
        if driver.Verifying? then Closed(settings, events, driver) else (events, driver)
      case Kill(_) => (events, Idle)
    }
  }

  function Perform(settings: Settings, s: System, step: Step): System
    requires Started(s.events)
  {
    if step.p >= |s.drivers| then s
    else
      var (events, driver) := Stepped(settings, s.events, s.drivers[step.p], step);
      System(events, s.drivers[step.p := driver])
  }

  lemma {:induction false} StepExtends(settings: Settings, s: System, step: Step)
    requires Started(s.events)
    ensures s.events <= Perform(settings, s, step).events && Started(Perform(settings, s, step).events)
  {
    hide Decide, Fold, ClosingOf;
  }

  function Drive(settings: Settings, s: System, steps: seq<Step>): (after: System)
    requires Started(s.events)
    ensures Started(after.events)
  {
    if steps == [] then s
    else
      var before := Drive(settings, s, steps[..|steps| - 1]);
      StepExtends(settings, before, steps[|steps| - 1]);
      Perform(settings, before, steps[|steps| - 1])
  }

  // ---- What an append rests on ----

  ghost predicate HasIncident(settings: Settings, events: seq<Event>) {
    exists i :: 0 <= i < |events| && events[i].body.IncidentRaised? && Ready(settings, events[i].body.incident)
  }

  ghost predicate HasContext(events: seq<Event>) {
    exists i :: 0 <= i < |events| && events[i].body.ContextGathered?
  }

  ghost predicate Proposes(event: Event, id: string) {
    event.body.CandidatesReady? && exists p :: p in event.body.proposals && p.id == id
  }

  ghost predicate HasProposal(events: seq<Event>, id: string) {
    exists i :: 0 <= i < |events| && Proposes(events[i], id)
  }

  predicate Chosen(event: Event, selected: Assessment) {
    event.body.CandidateAssessed? && event.body.assessment.(outcome := SELECTED) == selected
  }

  ghost predicate HasAssessed(events: seq<Event>, selected: Assessment) {
    exists i :: 0 <= i < |events| && Chosen(events[i], selected)
  }

  /** The patch is for some column. */
  ghost predicate IsPatched(settings: Settings, patch: Patch) {
    exists column :: Patched(settings, column, patch)
  }

  ghost predicate HasPatch(events: seq<Event>) {
    exists i :: 0 <= i < |events| && events[i].body.PatchReady?
  }

  ghost predicate HasEvidence(settings: Settings, events: seq<Event>) {
    exists i :: 0 <= i < |events| && events[i].body.EvidenceWritten? && Ready(settings, events[i].body.evidence)
  }

  ghost predicate HasDraft(events: seq<Event>) {
    exists i :: 0 <= i < |events| && events[i].body.PrOpened?
  }

  /** The deployment was recorded by a call that read the case, with its draft, at n. */
  ghost predicate DeployedFrom(events: seq<Event>, n: nat, body: Body) {
    && n <= |events| && Started(events[..n]) && HasDraft(events[..n])
    && Deployed(Fold(events[..n]), body)
  }

  /** The resolution ends a call that read the case at n, recorded the deployment at j and its
      verification at k. */
  ghost predicate ResolvedFrom(settings: Settings, events: seq<Event>, n: nat, j: nat, k: nat, body: Body) {
    && n <= j < k < |events|
    && DeployedFrom(events, n, events[j].body)
    && VerifiedAfter(settings, events[j].body, events[k].body)
    && Resolution(Fold(events[..n]), body)
  }

  /** Whatever was read when, an append rests on events that are there before it. */
  ghost predicate Grounded(settings: Settings, before: seq<Event>, event: Event) {
    && event.state.Some?
    && match event.body
       case IncidentRaised(_) => event.state.value == DETECTED
       case ContextGathered(context) =>
         event.state.value == CONTEXT_GATHERED && LiveContext(settings, context) && HasIncident(settings, before)
       case CandidatesReady(proposals, generation) =>
         && event.state.value == CANDIDATES_READY && proposals != [] && Ready(settings, generation)
         && HasContext(before)
       case ValidationStarted(_) => event.state.value == VALIDATING
       case CandidateAssessed(a) =>
         && event.state.value == VALIDATING && Judged(settings, a) && a.outcome != SELECTED
         && HasProposal(before, a.id)
       case PatchReady(selected, patch) =>
         && event.state.value == PATCH_READY && selected.outcome == SELECTED
         && Judged(settings, selected) && Passed(selected.checks) && HasAssessed(before, selected)
         && IsPatched(settings, patch)
       case EvidenceWritten(_) => event.state.value == PATCH_READY && HasPatch(before)
       case PrAttempted(pr) =>
         event.state.value == PATCH_READY && pr.integration.status != SUCCEEDED
       case PrOpened(pr) =>
         event.state.value == PR_OPEN && pr.integration.status == SUCCEEDED && HasEvidence(settings, before)
       case DeploymentRecorded(_, _) =>
         event.state.value == DEPLOYED && exists n :: DeployedFrom(before, n, event.body)
       case PostDeployVerified(_, _, _, _) =>
         && event.state.value == POST_DEPLOY_VERIFIED
         && exists j :: 0 <= j < |before| && VerifiedAfter(settings, before[j].body, event.body)
       case IncidentResolved(_) =>
         event.state.value == RESOLVED && exists n, j, k :: ResolvedFrom(settings, before, n, j, k, event.body)
       case CaseContained(_, _) => event.state.value == CONTAINED
       case CaseFailed(_) => event.state.value == CaseState.FAILED
       case _ => false
  }

  /** A stream that begins with its detection and in which every later event is grounded in those
      before it, and took a valid transition. */
  ghost predicate GroundedStream(settings: Settings, events: seq<Event>) {
    && Started(events) && Detection(events[0])
    && forall i :: 1 <= i < |events| ==> GroundedAt(settings, events, i)
  }

  ghost predicate GroundedAt(settings: Settings, events: seq<Event>, i: nat)
    requires 1 <= i < |events| && Started(events)
  {
    Started(events[..i]) && Accepts(events[..i], events[i]) && Grounded(settings, events[..i], events[i])
  }

  lemma {:induction false} StreamStarts(settings: Settings, events: seq<Event>)
    requires GroundedStream(settings, events)
    ensures Started(events) && |events| >= 1
  {
  }

  lemma {:induction false} PrefixGrounded(settings: Settings, events: seq<Event>, n: nat)
    requires GroundedStream(settings, events) && 1 <= n <= |events|
    ensures GroundedStream(settings, events[..n])
  {
    hide Grounded, Accepts;
    forall i | 1 <= i < n ensures GroundedAt(settings, events[..n], i) {
      assert GroundedAt(settings, events, i);
      assert events[..n][..i] == events[..i];
    }
  }

  /** The last event of a longer stream, and what came before it. */
  lemma {:induction false} LastGrounded(settings: Settings, events: seq<Event>)
    requires GroundedStream(settings, events) && |events| > 1
    ensures var n := |events| - 1;
            && GroundedStream(settings, events[..n]) && Started(events[..n]) && events == events[..n] + [events[n]]
            && Accepts(events[..n], events[n]) && Grounded(settings, events[..n], events[n])
            && Fold(events) == Apply(Fold(events[..n]), events[n])
  {
    hide Grounded, Accepts, Apply;
    PrefixGrounded(settings, events, |events| - 1);
    assert GroundedAt(settings, events, |events| - 1);
  }

  lemma {:induction false} OneMoreGrounded(settings: Settings, events: seq<Event>, event: Event)
    requires GroundedStream(settings, events) && Accepts(events, event) && Grounded(settings, events, event)
    ensures GroundedStream(settings, events + [event])
  {
    hide Grounded, Accepts;
    var longer := events + [event];
    forall i | 1 <= i < |longer| ensures GroundedAt(settings, longer, i) {
      assert longer[..i] == if i < |events| then events[..i] else events;
      assert i < |events| ==> GroundedAt(settings, events, i);
    }
  }

  // ---- What a call can know ----

  ghost predicate WroteBack(body: Body, written: Integration) {
    match body
    case EvidenceWritten(evidence) => evidence == written
    case CaseContained(_, writeback) => writeback == written
    case _ => false
  }

  predicate Assesses(event: Event, a: Assessment) {
    event.body.CandidateAssessed? && (event.body.assessment == a || event.body.assessment.(outcome := SELECTED) == a)
  }

  /** Every part of the view was recorded. */
  ghost predicate Known(settings: Settings, events: seq<Event>, view: View) {
    && (view.incident.Some? ==> exists i :: 0 <= i < |events| && events[i].body == IncidentRaised(view.incident.value))
    && (view.context.Some? ==> exists i :: 0 <= i < |events| && events[i].body == ContextGathered(view.context.value))
    && (forall p :: p in view.proposals ==>
        exists i :: 0 <= i < |events| && events[i].body.CandidatesReady? && p in events[i].body.proposals)
    && (forall a :: a in view.candidates ==>
        Judged(settings, a) && exists i :: 0 <= i < |events| && Assesses(events[i], a))
    && (view.selected.Some? ==> HasPatch(events))
    && (view.writeback.Some? ==>
        exists i :: 0 <= i < |events| && WroteBack(events[i].body, view.writeback.value))
  }

  lemma {:induction false} KnownGrows(settings: Settings, events: seq<Event>, later: seq<Event>, view: View)
    requires events <= later && Known(settings, events, view)
    ensures Known(settings, later, view)
  {
    hide Judged, Assesses, WroteBack;
    assert forall i :: 0 <= i < |events| ==> later[i] == events[i];
  }

  lemma {:induction false} KnownMixes(settings: Settings, events: seq<Event>, a: View, b: View, view: View)
    requires Known(settings, events, a) && Known(settings, events, b) && Mixes(a, b, view)
    ensures Known(settings, events, view)
  {
    hide Judged, Assesses, WroteBack, HasPatch;
  }

  lemma {:induction false} KnownApplies(settings: Settings, events: seq<Event>, view: View, event: Event)
    requires Known(settings, events, view) && Grounded(settings, events, event)
    ensures Known(settings, events + [event], Apply(view, event))
  {
    hide Apply, Judged, LiveContext, Passed, IsPatched, HasIncident, HasContext, HasProposal, HasEvidence, HasDraft,
      HasAssessed, DeployedFrom, ResolvedFrom, VerifiedAfter, ReplaceAssessment;
    var later, after := events + [event], Apply(view, event);
    KnownGrows(settings, events, later, view);
    assert later[|events|] == event;
    ApplyFields(view, event);
    if event.body.PatchReady? {
      SelectedIsKnown(settings, events, view, event.body.selected);
      assert forall i :: 0 <= i < |events| ==> later[i] == events[i];
    }
  }

  /** Marking the selected entry keeps all entries known. */
  lemma {:induction false} SelectedIsKnown(settings: Settings, events: seq<Event>, view: View, selected: Assessment)
    requires Known(settings, events, view) && Judged(settings, selected) && HasAssessed(events, selected)
    ensures forall a :: a in ReplaceAssessment(view.candidates, selected) ==>
      Judged(settings, a) && exists i :: 0 <= i < |events| && Assesses(events[i], a)
  {
    hide Judged;
    var replaced := ReplaceAssessment(view.candidates, selected);
    forall a | a in replaced
      ensures Judged(settings, a) && exists i :: 0 <= i < |events| && Assesses(events[i], a)
    {
      var k :| 0 <= k < |replaced| && replaced[k] == a;
      if view.candidates[k].id == selected.id {
        var i :| 0 <= i < |events| && Chosen(events[i], selected);
        assert Assesses(events[i], a);
      } else {
        assert a in view.candidates;
      }
    }
  }

  /** What a call reads was recorded. */
  lemma {:induction false} ReadIsKnown(settings: Settings, events: seq<Event>)
    requires GroundedStream(settings, events)
    ensures Known(settings, events, Fold(events))
    decreases |events|
  {
    if |events| == 1 {
      assert events == [events[0]];
    } else {
      LastGrounded(settings, events);
      hide Known, Grounded, Apply, GroundedStream, Accepts;
      var init := events[..|events| - 1];
      ReadIsKnown(settings, init);
      KnownApplies(settings, init, Fold(init), events[|events| - 1]);
    }
  }

  /** A contained case stays contained, so whoever can still append was not contained before. */
  lemma {:induction false} AliveIsUncontained(settings: Settings, events: seq<Event>, i: nat)
    requires GroundedStream(settings, events) && Alive(Fold(events)) && i < |events|
    ensures !events[i].body.CaseContained?
    decreases |events|
  {
    if |events| > 1 {
      LastGrounded(settings, events);
      hide Apply, Grounded, GroundedStream, Fold;
      var n := |events| - 1;
      LastKeepsAlive(settings, events[..n], events[n], Fold(events[..n]));
      if i < n {
        AliveIsUncontained(settings, events[..n], i);
        assert events[i] == events[..n][i];
      }
    }
  }

  lemma {:induction false} LastKeepsAlive(settings: Settings, before: seq<Event>, event: Event, view: View)
    requires Grounded(settings, before, event) && ValidTransition(Some(view.state), event.state.value)
    requires Alive(Apply(view, event))
    ensures Alive(view) && !event.body.CaseContained?
  {
    ApplyFields(view, event);
    hide Apply, HasIncident, HasContext, HasProposal, HasEvidence, HasDraft, LiveContext, Judged, Passed, HasAssessed,
      HasPatch, DeployedFrom, ResolvedFrom, VerifiedAfter;
  }

  /** A case in PR_OPEN has its draft recorded. */
  lemma {:induction false} OpenHasDraft(settings: Settings, events: seq<Event>)
    requires GroundedStream(settings, events) && Fold(events).state == PR_OPEN
    ensures HasDraft(events)
  {
    var n := |events| - 1;
    if n > 0 {
      assert GroundedAt(settings, events, n);
      ApplyFields(Fold(events[..n]), events[n]);
      hide Apply, HasIncident, HasContext, HasProposal, HasEvidence, LiveContext, Judged, Passed, HasAssessed,
        HasPatch, DeployedFrom, ResolvedFrom, VerifiedAfter;
      assert events[n].body.PrOpened?;
    }
  }

  // ---- Every append is grounded ----

  /** What an advance decides on what it knows. */
  lemma {:induction false} DecidedIsGrounded(settings: Settings, d: Delivery, events: seq<Event>, known: View,
        recent: set<string>)
    requires GroundedStream(settings, events) && Known(settings, events, known)
    requires Decide(settings, d, known, recent).Some? && Accepts(events, Decide(settings, d, known, recent).value)
    ensures Grounded(settings, events, Decide(settings, d, known, recent).value)
  {
    var event := Decide(settings, d, known, recent).value;
    DecideFacts(settings, d, known, recent);
    hide Decide;
    if event.body.CandidateAssessed? {
      AssessedIsGrounded(settings, events, known, event);
    } else if event.body.PatchReady? {
      SelectedIsGrounded(settings, events, known, event);
    } else if event.body.PrOpened? {
      OpenedIsGrounded(settings, events, known, event);
    } else {
      StageIsGrounded(settings, events, known, event);
    }
  }

  lemma {:induction false} StageIsGrounded(settings: Settings, events: seq<Event>, known: View, event: Event)
    requires Known(settings, events, known) && StepFacts(settings, known, event)
    requires !event.body.CandidateAssessed? && !event.body.PatchReady? && !event.body.PrOpened?
    ensures Grounded(settings, events, event)
  {
    hide LiveContext, Judged, Assesses, WroteBack, Eligible, Best, DistinctIds, Fold;
  }

  lemma {:induction false} AssessedIsGrounded(settings: Settings, events: seq<Event>, known: View, event: Event)
    requires GroundedStream(settings, events) && Known(settings, events, known)
    requires event.body.CandidateAssessed? && StepFacts(settings, known, event)
    ensures Grounded(settings, events, event)
  {
    hide Judged, Assesses, WroteBack, Eligible, Best, DistinctIds, Fold, Accepts, Assessed;
    var i :| 0 <= i < |events| && events[i].body == ContextGathered(known.context.value);
    assert GroundedAt(settings, events, i);
    var p :| p in known.proposals && p.id == event.body.assessment.id;
    var j :| 0 <= j < |events| && events[j].body.CandidatesReady? && p in events[j].body.proposals;
    assert Proposes(events[j], event.body.assessment.id);
  }

  lemma {:induction false} SelectedIsGrounded(settings: Settings, events: seq<Event>, known: View, event: Event)
    requires Known(settings, events, known) && event.body.PatchReady? && StepFacts(settings, known, event)
    ensures Grounded(settings, events, event)
  {
    hide WroteBack, DistinctIds, Fold, Best, Eligible, RanksBefore, Policy.Checks, Patched, EachAssessed;
    var eligible := Eligible(known.proposals, known.candidates);
    var best := Best(eligible);
    BestIsLeast(eligible);
    EligibleAreCandidates(known.proposals, known.candidates);
    assert best in known.candidates && best.outcome != REJECTED;
    var i :| 0 <= i < |events| && Assesses(events[i], best);
    assert Chosen(events[i], event.body.selected);
  }

  lemma {:induction false} OpenedIsGrounded(settings: Settings, events: seq<Event>, known: View, event: Event)
    requires GroundedStream(settings, events) && Known(settings, events, known)
    requires event.body.PrOpened? && StepFacts(settings, known, event) && Accepts(events, event)
    ensures Grounded(settings, events, event)
  {
    StreamStarts(settings, events);
    hide Judged, Assesses, Eligible, Best, DistinctIds, Fold, GroundedStream;
    var i :| 0 <= i < |events| && WroteBack(events[i].body, known.writeback.value);
    assert Alive(Fold(events));
    AliveIsUncontained(settings, events, i);
  }

  /** Where the appends of a verification have landed. */
  ghost predicate VerifierOk(settings: Settings, events: seq<Event>, v: Driver)
    requires v.Verifying?
  {
    && 1 <= v.read <= |events| && Started(events[..v.read])
    && var closing := ClosingOf(settings, events, v);
       && |v.at| <= |closing|
       && (forall k :: 0 <= k < |v.at| ==> v.read <= v.at[k] < |events| && events[v.at[k]] == closing[k])
       && (forall k :: 0 < k < |v.at| ==> v.at[k - 1] < v.at[k])
  }

  /** What a verification appends rests on what it read and on its own earlier appends. */
  lemma {:induction false} ClosingIsGrounded(settings: Settings, events: seq<Event>, v: Driver)
    requires GroundedStream(settings, events) && v.Verifying? && VerifierOk(settings, events, v)
    requires |v.at| < |ClosingOf(settings, events, v)|
    ensures Grounded(settings, events, ClosingOf(settings, events, v)[|v.at|])
  {
    var view := Fold(events[..v.read]);
    var closing := ClosingOf(settings, events, v);
    VerifyShape(settings, v.caseId, v.w, view, v.request);
    PrefixGrounded(settings, events, v.read);
    hide ClosingOf, GroundedStream, Fold, Grounded, Deployed, VerifiedAfter, Resolution;
    OpenHasDraft(settings, events[..v.read]);
    ShapeIsGrounded(settings, events, v.read, view, closing, v.at);
  }

  lemma {:induction false} ShapeIsGrounded(settings: Settings, events: seq<Event>, read: nat, view: View,
        closing: seq<Event>, at: seq<nat>)
    requires read <= |events| && Started(events[..read]) && view == Fold(events[..read]) && HasDraft(events[..read])
    requires ClosingShape(settings, view, closing) && |at| < |closing|
    requires forall k :: 0 <= k < |at| ==> read <= at[k] < |events| && events[at[k]] == closing[k]
    requires forall k :: 0 < k < |at| ==> at[k - 1] < at[k]
    ensures Grounded(settings, events, closing[|at|])
  {
    hide Fold, HasDraft, Passed, Policy.Checks, Deployment.IncidentIsLive;
    if |at| == 0 {
      assert DeployedFrom(events, read, closing[0].body);
    } else if |at| == 1 {
      assert events[at[0]] == closing[0];
    } else {
      EndIsGrounded(settings, events, read, closing, at[0], at[1], closing[2]);
    }
  }

  lemma {:induction false} EndIsGrounded(settings: Settings, events: seq<Event>, read: nat, closing: seq<Event>,
        j: nat, k: nat, event: Event)
    requires read <= j < k < |events| && Started(events[..read]) && HasDraft(events[..read])
    requires ClosingShape(settings, Fold(events[..read]), closing) && |closing| == 3 && event == closing[2]
    requires events[j] == closing[0] && events[k] == closing[1]
    ensures Grounded(settings, events, event)
  {
    hide Fold, HasDraft, Passed, Policy.Checks, Deployment.IncidentIsLive;
    if event.body.IncidentResolved? {
      assert DeployedFrom(events, read, events[j].body);
      assert ResolvedFrom(settings, events, read, j, k, event.body);
    }
  }

  // ---- Every interleaving ----

  ghost predicate DriverOk(settings: Settings, events: seq<Event>, driver: Driver) {
    match driver
    case Advancing(known, _) => Known(settings, events, known)
    case Verifying(_, _, _, _, _) => VerifierOk(settings, events, driver)
    case _ => true
  }

  ghost predicate SystemOk(settings: Settings, s: System) {
    && GroundedStream(settings, s.events)
    && forall p :: 0 <= p < |s.drivers| ==> DriverOk(settings, s.events, s.drivers[p])
  }

  lemma {:induction false} DriverStays(settings: Settings, events: seq<Event>, later: seq<Event>, driver: Driver)
    requires events <= later && DriverOk(settings, events, driver)
    ensures DriverOk(settings, later, driver)
  {
    match driver
    case Advancing(known, _) => KnownGrows(settings, events, later, known);
    case Verifying(_, _, _, read, _) => assert later[..read] == events[..read];
    case _ =>
  }

  lemma {:induction false} StepKeepsOk(settings: Settings, events: seq<Event>, driver: Driver, step: Step)
    requires GroundedStream(settings, events) && DriverOk(settings, events, driver)
    ensures var (after, next) := Stepped(settings, events, driver, step);
            events <= after && GroundedStream(settings, after) && DriverOk(settings, after, next)
  {
    hide GroundedStream, Known, VerifierOk, Acted, Closed, Mixes, Accepts, Grounded, Fold;
    StreamStarts(settings, events);
    match step
    case StartAdvance(_) => ReadIsKnown(settings, events);
    case Refresh(_, known) =>
      ReadIsKnown(settings, events);
      if driver.Advancing? && Mixes(driver.known, Fold(events), known) {
        KnownMixes(settings, events, driver.known, Fold(events), known);
      }
    case Act(_, d) =>
      if driver.Advancing? {
        ActKeepsOk(settings, events, d, driver.known, driver.recent);
      }
    case Fail(_) =>
      if driver.Failing? && Accepts(events, CRASH) {
        assert Grounded(settings, events, CRASH) by { CrashIsGrounded(settings, events); }
        OneMoreGrounded(settings, events, CRASH);
      }
    case StartVerify(_, caseId, w, request) =>
      StartIsOk(settings, events, caseId, w, request);
    case Close(_) =>
      if driver.Verifying? {
        CloseKeepsOk(settings, events, driver);
      }
    case Kill(_) =>
  }

  lemma {:induction false} CrashIsGrounded(settings: Settings, events: seq<Event>)
    ensures Grounded(settings, events, CRASH)
  {
  }

  lemma {:induction false} StartIsOk(settings: Settings, events: seq<Event>, caseId: string, w: Deployment.Adapters,
        request: Deployment.Request)
    requires Started(events)
    ensures VerifierOk(settings, events, Verifying(caseId, w, request, |events|, []))
  {
    assert events[..|events|] == events;
  }

  lemma {:induction false} ActKeepsOk(settings: Settings, events: seq<Event>, d: Delivery, known: View,
        recent: set<string>)
    requires GroundedStream(settings, events) && Known(settings, events, known) && Started(events)
    ensures var (after, next) := Acted(settings, events, d, known, recent);
            events <= after && GroundedStream(settings, after) && DriverOk(settings, after, next)
  {
    hide GroundedStream, Known, Decide, Grounded, Fold, Apply;
    var decided := Decide(settings, d, known, recent);
    if decided.Some? && Accepts(events, decided.value) {
      DecidedIsGrounded(settings, d, events, known, recent);
      OneMoreGrounded(settings, events, decided.value);
      KnownApplies(settings, events, known, decided.value);
    }
  }

  lemma {:induction false} CloseKeepsOk(settings: Settings, events: seq<Event>, v: Driver)
    requires GroundedStream(settings, events) && v.Verifying? && VerifierOk(settings, events, v) && Started(events)
    ensures var (after, next) := Closed(settings, events, v);
            events <= after && GroundedStream(settings, after) && DriverOk(settings, after, next)
  {
    hide GroundedStream, Accepts, Grounded, Fold, Deployment.Verify;
    var closing := ClosingOf(settings, events, v);
    if |v.at| < |closing| && Accepts(events, closing[|v.at|]) {
      ClosingIsGrounded(settings, events, v);
      OneMoreGrounded(settings, events, closing[|v.at|]);
      assert (events + [closing[|v.at|]])[..v.read] == events[..v.read];
    }
  }

  /** Whatever any number of calls read and append, in any order, every event of the case is
      grounded in the events before it. */
  lemma {:induction false} SharedIsGrounded(settings: Settings, s: System, steps: seq<Step>)
    requires Started(s.events) && SystemOk(settings, s)
    ensures SystemOk(settings, Drive(settings, s, steps))
  {
    if steps != [] {
      hide GroundedStream, DriverOk, Stepped;
      var before := Drive(settings, s, steps[..|steps| - 1]);
      var step := steps[|steps| - 1];
      SharedIsGrounded(settings, s, steps[..|steps| - 1]);
      if step.p < |before.drivers| {
        StepKeepsOk(settings, before.events, before.drivers[step.p], step);
        var (events, next) := Stepped(settings, before.events, before.drivers[step.p], step);
        forall p | 0 <= p < |before.drivers| && p != step.p ensures DriverOk(settings, events, before.drivers[p]) {
          DriverStays(settings, before.events, events, before.drivers[p]);
        }
      }
    }
  }

  // ---- What survives ----

  /** A detected case, and idle processes. */
  function Begun(first: Event, processes: nat): System {
    System([first], seq(processes, _ => Idle))
  }

  lemma {:induction false} BegunIsOk(settings: Settings, first: Event, processes: nat)
    requires Detection(first)
    ensures Started(Begun(first, processes).events) && SystemOk(settings, Begun(first, processes))
  {
  }

  /** In this order before i: a succeeded incident, a live and complete context, a succeeded
      generation that proposed the candidate, its assessment, its selection on checks of the policy
      that all passed, with a patched model and its digest, and a succeeded evidence write-back. */
  ghost predicate EvidenceAt(settings: Settings, events: seq<Event>, at: seq<nat>, i: nat) {
    && |at| == 6 && i < |events|
    && at[0] < at[1] < at[2] < at[3] < at[4] < at[5] < i
    && events[at[0]].body.IncidentRaised? && events[at[0]].body.incident.status == SUCCEEDED
    && events[at[1]].body.ContextGathered? && LiveContext(settings, events[at[1]].body.context)
    && events[at[1]].body.context.integration.status == SUCCEEDED
    && events[at[2]].body.CandidatesReady? && events[at[2]].body.generation.status == SUCCEEDED
    && events[at[3]].body.CandidateAssessed? && Proposes(events[at[2]], events[at[3]].body.assessment.id)
    && events[at[4]].body.PatchReady? && Chosen(events[at[3]], events[at[4]].body.selected)
    && Judged(settings, events[at[4]].body.selected) && Passed(events[at[4]].body.selected.checks)
    && IsPatched(settings, events[at[4]].body.patch)
    && events[at[5]].body.EvidenceWritten? && events[at[5]].body.evidence.status == SUCCEEDED
  }

  lemma {:induction false} DraftRestsOnEvidence(settings: Settings, events: seq<Event>, i: nat) returns (at: seq<nat>)
    requires GroundedStream(settings, events) && !settings.replayMode && i < |events| && events[i].body.PrOpened?
    ensures EvidenceAt(settings, events, at, i)
  {
    hide Judged, Passed, IsPatched, Accepts, LiveContext, Fold, DeployedFrom, ResolvedFrom, VerifiedAfter, Proposes,
      Chosen;
    assert GroundedAt(settings, events, i);
    var wb: nat :| wb < i && events[..i][wb].body.EvidenceWritten? && Ready(settings, events[..i][wb].body.evidence);
    assert GroundedAt(settings, events, wb);
    var sel: nat :| sel < wb && events[..wb][sel].body.PatchReady?;
    var inc, ctx, gen, ass := SelectionRests(settings, events, sel);
    assert LiveContext(settings, events[ctx].body.context) && events[ctx].body.context.integration.status == SUCCEEDED
        by {
      ContextIsLive(settings, events, ctx);
    }
    at := [inc, ctx, gen, ass, sel, wb];
  }

  lemma {:induction false} ContextIsLive(settings: Settings, events: seq<Event>, i: nat)
    requires GroundedStream(settings, events) && i < |events| && events[i].body.ContextGathered?
    ensures LiveContext(settings, events[i].body.context)
    ensures !settings.replayMode ==> events[i].body.context.integration.status == SUCCEEDED
  {
    hide Accepts, Complete, HasIncident;
    assert GroundedAt(settings, events, i);
  }

  /** What a selection rests on. */
  lemma {:induction false} SelectionRests(settings: Settings, events: seq<Event>, sel: nat)
    returns (inc: nat, ctx: nat, gen: nat, ass: nat)
    requires GroundedStream(settings, events) && !settings.replayMode && sel < |events| && events[sel].body.PatchReady?
    ensures inc < ctx < gen < ass < sel
    ensures events[inc].body.IncidentRaised? && events[inc].body.incident.status == SUCCEEDED
    ensures events[ctx].body.ContextGathered?
    ensures events[gen].body.CandidatesReady? && events[gen].body.generation.status == SUCCEEDED
    ensures events[ass].body.CandidateAssessed? && Proposes(events[gen], events[ass].body.assessment.id)
    ensures Chosen(events[ass], events[sel].body.selected)
    ensures Judged(settings, events[sel].body.selected) && Passed(events[sel].body.selected.checks)
    ensures IsPatched(settings, events[sel].body.patch)
  {
    hide Judged, Passed, IsPatched, Accepts, LiveContext, Fold, DeployedFrom, ResolvedFrom, VerifiedAfter, Proposes,
      GroundedStream,
      HasPatch, HasEvidence, HasDraft;
    AtGrounded(settings, events, sel);
    var before := events[..sel];
    ass :| 0 <= ass < sel && Chosen(before[ass], events[sel].body.selected);
    AtGrounded(settings, events, ass);
    before := events[..ass];
    gen :| 0 <= gen < ass && Proposes(before[gen], events[ass].body.assessment.id);
    ProposesMeans(events[gen], events[ass].body.assessment.id);
    AtGrounded(settings, events, gen);
    before := events[..gen];
    ctx :| 0 <= ctx < gen && before[ctx].body.ContextGathered?;
    AtGrounded(settings, events, ctx);
    before := events[..ctx];
    inc :| 0 <= inc < ctx && before[inc].body.IncidentRaised? && Ready(settings, before[inc].body.incident);
  }

  lemma {:induction false} AtGrounded(settings: Settings, events: seq<Event>, i: nat)
    requires GroundedStream(settings, events) && i < |events| && !events[i].body.SchemaChangeDetected?
    ensures i > 0 && Grounded(settings, events[..i], events[i])
  {
    hide Grounded;
    if i > 0 {
      assert GroundedAt(settings, events, i);
    }
  }

  lemma {:induction false} ProposesMeans(event: Event, id: string)
    requires Proposes(event, id)
    ensures event.body.CandidatesReady?
  {
  }

  /** A resolution rests on a verification, by the same call, of a deployment that it recorded
      after it had read the case with its draft; for an incident that was live when it read, the
      evidence was recomputed and the resolution succeeded. */
  ghost predicate ResolvedAt(settings: Settings, events: seq<Event>, draft: nat, n: nat, j: nat, k: nat, i: nat) {
    && draft < n <= j < k < i < |events|
    && events[draft].body.PrOpened? && events[i].body.IncidentResolved?
    && VerifiedAfter(settings, events[j].body, events[k].body)
    && Started(events[..n])
    && (Deployment.IncidentIsLive(Fold(events[..n])) ==>
        events[j].body.mode == LIVE_RECOMPUTED && events[i].body.resolution.status == SUCCEEDED)
  }

  lemma {:induction false} ResolutionRestsOnEvidence(settings: Settings, events: seq<Event>, i: nat)
    returns (draft: nat, n: nat, j: nat, k: nat)
    requires GroundedStream(settings, events) && i < |events| && events[i].body.IncidentResolved?
    ensures ResolvedAt(settings, events, draft, n, j, k, i)
  {
    hide Accepts, Fold, Passed, Policy.Checks, Deployment.IncidentIsLive;
    assert GroundedAt(settings, events, i);
    var before := events[..i];
    n, j, k :| ResolvedFrom(settings, before, n, j, k, events[i].body);
    assert before[j] == events[j] && before[k] == events[k];
    assert before[..j] == events[..j] && before[..n] == events[..n];
    draft :| 0 <= draft < n && before[..n][draft].body.PrOpened?;
    assert before[..n][draft] == events[draft];
  }

  /** Whatever any number of processes read and when, in connected mode every draft of the case
      rests on evidence recorded before it, and every resolution on a verification that passed. */
  lemma {:induction false} SharedKeepsEvidence(settings: Settings, first: Event, processes: nat, steps: seq<Step>,
        i: nat)
    requires Detection(first) && Started(Begun(first, processes).events)
    requires i < |Drive(settings, Begun(first, processes), steps).events|
    ensures var events := Drive(settings, Begun(first, processes), steps).events;
            && (!settings.replayMode && events[i].body.PrOpened? ==> exists at :: EvidenceAt(settings, events, at, i))
            && (events[i].body.IncidentResolved? ==>
                exists draft, n, j, k :: ResolvedAt(settings, events, draft, n, j, k, i))
  {
    hide SystemOk, EvidenceAt, ResolvedAt, Drive, GroundedStream;
    BegunIsOk(settings, first, processes);
    SharedIsGrounded(settings, Begun(first, processes), steps);
    var events := Drive(settings, Begun(first, processes), steps).events;
    OkIsGrounded(settings, Drive(settings, Begun(first, processes), steps));
    if !settings.replayMode && events[i].body.PrOpened? {
      var at := DraftRestsOnEvidence(settings, events, i);
    }
    if events[i].body.IncidentResolved? {
      var draft, n, j, k := ResolutionRestsOnEvidence(settings, events, i);
    }
  }

  lemma {:induction false} OkIsGrounded(settings: Settings, s: System)
    requires SystemOk(settings, s)
    ensures GroundedStream(settings, s.events)
  {
  }

  // ---- What does not ----

  lemma {:induction false} DriveOn(settings: Settings, s: System, steps: seq<Step>, step: Step)
    requires Started(s.events)
    ensures Drive(settings, s, steps + [step]) == Perform(settings, Drive(settings, s, steps), step)
  {
    assert (steps + [step])[..|steps|] == steps;
  }

  lemma {:induction false} DriveOne(settings: Settings, s: System, step: Step)
    requires Started(s.events)
    ensures Drive(settings, s, [step]) == Perform(settings, s, step)
  {
    hide Perform;
    assert [step][..0] == [];
    assert Drive(settings, s, []) == s;
  }

  /** Two processes that start on a case at the same time both read it as it is. */
  lemma {:induction false} BothStart(settings: Settings, events: seq<Event>)
    requires Started(events) && Fold(events).state in RESUMABLE
    ensures var view := Fold(events);
            Drive(settings, System(events, [Idle, Idle]), [StartAdvance(0), StartAdvance(1)])
            == System(events, [Advancing(view, {}), Advancing(view, {})])
  {
    var s := System(events, [Idle, Idle]);
    DriveOne(settings, s, StartAdvance(0));
    hide Fold, Drive, Acted, Closed, Accepts, Mixes;
    var once := Perform(settings, s, StartAdvance(0));
    assert once == System(events, [Advancing(Fold(events), {}), Idle]);
    assert Perform(settings, once, StartAdvance(1))
        == System(events, [Advancing(Fold(events), {}), Advancing(Fold(events), {})]);
    DriveOn(settings, s, [StartAdvance(0)], StartAdvance(1));
    assert [StartAdvance(0)] + [StartAdvance(1)] == [StartAdvance(0), StartAdvance(1)];
  }

  /** A process that knows this view decides on this event, and the store accepts it. */
  lemma {:induction false} Appends(settings: Settings, s: System, p: nat, d: Delivery, event: Event)
    requires Started(s.events) && p < |s.drivers| && s.drivers[p].Advancing? && s.drivers[p].recent == {}
    requires Decide(settings, d, s.drivers[p].known, {}) == Some(event) && Accepts(s.events, event)
    requires !event.body.CandidateAssessed? && !event.body.PrAttempted?
    ensures var after := Perform(settings, s, Act(p, d));
            && after.events == s.events + [event]
            && after.drivers == s.drivers[p :=
                 if event.state.value in RESUMABLE then Advancing(Apply(s.drivers[p].known, event), {}) else Idle]
  {
    hide Decide, Fold, Apply;
  }

  /** Two processes that both read a case without an incident both record one: no stage is safe
      from being recorded twice. */
  lemma {:induction false} StageCanRepeat(settings: Settings, first: Event, d: Delivery, incident: Integration)
    requires Detection(first) && d.adapters.raiseIncident(d.change.entityUrn, d.caseId) == Reply(incident)
    ensures var s := System([first], [Idle, Idle]);
            var steps := [StartAdvance(0), StartAdvance(1)] + [Act(0, d)] + [Act(1, d)];
            var raised := Event(IncidentRaised(incident), Some(DETECTED));
            && Started(s.events)
            && Drive(settings, s, steps).events == [first, raised, raised]
            && !StagesOnce([first, raised, raised])
  {
    var s := System([first], [Idle, Idle]);
    var raised := Event(IncidentRaised(incident), Some(DETECTED));
    DetectedView(settings, d, first, raised);
    CountStep([first, raised], raised, IsIncidentRaised);
    CountStep([first], raised, IsIncidentRaised);
    assert [first] + [raised] == [first, raised] && [first, raised] + [raised] == [first, raised, raised];
    hide Decide, Fold, Accepts, Apply, Perform, Drive;
    BothStart(settings, [first]);
    var begun := Drive(settings, s, [StartAdvance(0), StartAdvance(1)]);
    DriveOn(settings, s, [StartAdvance(0), StartAdvance(1)], Act(0, d));
    Appends(settings, begun, 0, d, raised);
    var once := Perform(settings, begun, Act(0, d));
    DriveOn(settings, s, [StartAdvance(0), StartAdvance(1)] + [Act(0, d)], Act(1, d));
    Appends(settings, once, 1, d, raised);
  }

  lemma {:induction false} DetectedView(settings: Settings, d: Delivery, first: Event, raised: Event)
    requires Detection(first) && raised == RaiseIncident(d) && raised.body.IncidentRaised?
    ensures Fold([first]).state == DETECTED && Decide(settings, d, Fold([first]), {}) == Some(raised)
    ensures Accepts([first], raised) && Accepts([first, raised], raised)
  {
    assert Fold([first]) == Initial(first);
    FoldStep([first], raised);
    ApplyFields(Fold([first]), raised);
    assert [first] + [raised] == [first, raised];
  }

  /** A case under way whose evidence is about to be written. */
  ghost predicate WritebackIsNext(settings: Settings, view: View) {
    && view.state == PATCH_READY
    && view.incident.Some? && Ready(settings, view.incident.value)
    && view.context.Some? && Complete(view.context.value)
    && view.generation.Some? && view.proposals != [] && Ready(settings, view.generation.value)
    && DistinctIds(view.proposals)
    && Pending(view.proposals, view.candidates) == [] && Eligible(view.proposals, view.candidates) != []
    && view.selected.Some? && view.patch.Some? && view.writeback.None? && view.pullRequest.None?
  }

  lemma {:induction false} WritesNext(settings: Settings, d: Delivery, view: View, written: Integration)
    requires WritebackIsNext(settings, view)
    requires d.adapters.writeReport(d.change.entityUrn, d.caseId,
                                    Validated(view.selected.value, view.patch.value.sha256)) == Reply(written)
    ensures Decide(settings, d, view, {}) == Some(Event(EvidenceWritten(written), Some(PATCH_READY)))
  {
    hide Pending, Eligible, DistinctIds;
  }

  lemma {:induction false} OpensNext(settings: Settings, d: Delivery, view: View, written: Integration,
        draft: PullRequest)
    requires WritebackIsNext(settings, view) && Ready(settings, written)
    requires d.adapters.createDraft(d.caseId, view.patch.value) == Reply(draft) && draft.integration.status == SUCCEEDED
    ensures var next := Apply(view, Event(EvidenceWritten(written), Some(PATCH_READY)));
            Decide(settings, d, next, {}) == Some(Event(PrOpened(draft), Some(PR_OPEN)))
  {
    ApplyFields(view, Event(EvidenceWritten(written), Some(PATCH_READY)));
    hide Pending, Eligible, DistinctIds, Apply;
  }

  /** Two processes that both read a case before its evidence was written: a write-back that failed
      can land after one that succeeded and before the draft, so that the case in PR_OPEN shows the
      failed one - in connected mode, and from every case that gets that far. */
  lemma {:induction false} WritebackCanTurn(settings: Settings, events: seq<Event>, c: Delivery, d: Delivery,
        good: Integration, bad: Integration, draft: PullRequest)
    requires Started(events) && WritebackIsNext(settings, Fold(events)) && !settings.replayMode
    requires good.status == SUCCEEDED && bad.status != SUCCEEDED && draft.integration.status == SUCCEEDED
    requires var view := Fold(events);
             var report := Validated(view.selected.value, view.patch.value.sha256);
             && c.adapters.writeReport(c.change.entityUrn, c.caseId, report) == Reply(good)
             && d.adapters.writeReport(d.change.entityUrn, d.caseId, report) == Reply(bad)
             && c.adapters.createDraft(c.caseId, view.patch.value) == Reply(draft)
    ensures var s := System(events, [Idle, Idle]);
            var steps := [StartAdvance(0), StartAdvance(1)] + [Act(0, c)] + [Act(1, d)] + [Act(0, c)];
            var after := Drive(settings, s, steps).events;
            && after == events + [Event(EvidenceWritten(good), Some(PATCH_READY))]
                        + [Event(EvidenceWritten(bad), Some(PATCH_READY))] + [Event(PrOpened(draft), Some(PR_OPEN))]
            && Fold(after).state == PR_OPEN && Fold(after).writeback == Some(bad)
            && !DraftHasEvidence(settings, after)
  {
    var s, view := System(events, [Idle, Idle]), Fold(events);
    var first, second := Event(EvidenceWritten(good), Some(PATCH_READY)),
        Event(EvidenceWritten(bad), Some(PATCH_READY));
    var third := Event(PrOpened(draft), Some(PR_OPEN));
    WritesNext(settings, c, view, good);
    WritesNext(settings, d, view, bad);
    OpensNext(settings, c, view, good, draft);
    ThreeAppends(events, first, second, third);
    BothStart(settings, events);
    TurnedShows(settings, events + [first] + [second] + [third], bad);
    hide Decide, Fold, Accepts, Apply, Perform, Drive, WritebackIsNext, DraftHasEvidence;
    var start := [StartAdvance(0), StartAdvance(1)];
    var begun := Drive(settings, s, start);
    DriveOn(settings, s, start, Act(0, c));
    Appends(settings, begun, 0, c, first);
    var written := Perform(settings, begun, Act(0, c));
    DriveOn(settings, s, start + [Act(0, c)], Act(1, d));
    Appends(settings, written, 1, d, second);
    var turned := Perform(settings, written, Act(1, d));
    DriveOn(settings, s, start + [Act(0, c)] + [Act(1, d)], Act(0, c));
    Appends(settings, turned, 0, c, third);
  }

  lemma {:induction false} TurnedShows(settings: Settings, events: seq<Event>, bad: Integration)
    requires Started(events) && !settings.replayMode && bad.status != SUCCEEDED
    requires Fold(events).state == PR_OPEN && Fold(events).writeback == Some(bad)
    ensures !DraftHasEvidence(settings, events)
  {
    hide Fold, Selection;
  }

  lemma {:induction false} ThreeAppends(events: seq<Event>, first: Event, second: Event, third: Event)
    requires Started(events) && Fold(events).state == PATCH_READY
    requires first.body.EvidenceWritten? && first.state == Some(PATCH_READY)
    requires second.body.EvidenceWritten? && second.state == Some(PATCH_READY)
    requires third.body.PrOpened? && third.state == Some(PR_OPEN)
    ensures Accepts(events, first) && Started(events + [first])
    ensures Accepts(events + [first], second) && Started(events + [first] + [second])
    ensures Accepts(events + [first] + [second], third) && Started(events + [first] + [second] + [third])
    ensures Fold(events + [first] + [second] + [third]).state == PR_OPEN
    ensures Fold(events + [first] + [second] + [third]).writeback == Some(second.body.evidence)
  {
    FoldStep(events, first);
    FoldStep(events + [first], second);
    FoldStep(events + [first] + [second], third);
    ApplyFields(Fold(events), first);
    ApplyFields(Fold(events + [first]), second);
    ApplyFields(Fold(events + [first] + [second]), third);
    hide Fold, Apply;
  }
}
