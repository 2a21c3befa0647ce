/** What one advance records, event by event, in terms of what the case holds and what the external
    systems answer. Nothing here goes by the functions that decide a step: an event is explained by
    the conditions under which the workflow must record just this one. */
module AdvanceMeaning {
  import opened Model
  import opened StateMachine
  import opened Projection
  import opened Recovery
  import opened CaseHistory
  import AdvanceSteps
  import Canonical
  import Policy
  import SqlSafety

  // ---- What the case has in hand ----

  /** In connected mode an integration must have succeeded. */
  ghost predicate Usable(settings: Settings, integration: Integration) {
    !settings.replayMode ==> integration.status == SUCCEEDED
  }

  ghost predicate Sufficient(context: Context) {
    context.glossary.Some? && |context.glossary.value| > 0 && context.lineageCurrent
  }

  ghost predicate IncidentInHand(settings: Settings, view: View) {
    view.incident.Some? && Usable(settings, view.incident.value)
  }

  ghost predicate ContextInHand(settings: Settings, view: View) {
    IncidentInHand(settings, view) && view.context.Some? && Sufficient(view.context.value)
  }

  ghost predicate ProposalsInHand(settings: Settings, view: View) {
    && ContextInHand(settings, view)
    && view.generation.Some? && Usable(settings, view.generation.value)
    && |view.proposals| > 0
    && forall i, j :: 0 <= i < j < |view.proposals| ==> view.proposals[i].id != view.proposals[j].id
  }

  /** Validation has started and every proposal has its assessment. */
  ghost predicate AllJudged(settings: Settings, view: View) {
    && ProposalsInHand(settings, view)
    && view.state != CANDIDATES_READY
    && forall p :: p in view.proposals ==> p.id in Ids(view.candidates)
  }

  ghost predicate PatchInHand(settings: Settings, view: View) {
    AllJudged(settings, view) && view.selected.Some? && view.patch.Some?
  }

  ghost predicate WritebackInHand(settings: Settings, view: View) {
    PatchInHand(settings, view) && view.writeback.Some? && Usable(settings, view.writeback.value)
  }

  // ---- The context ----

  ghost predicate ReadSuffices(settings: Settings, read: ContextRead) {
    if read.integration.status == SUCCEEDED
    then read.glossary.Some? && |read.glossary.value| > 0 && read.lineageCurrent
    else settings.replayMode
  }

  /** A context that was read is what was read; otherwise it is the fixture of the replay. */
  ghost predicate ContextOf(read: ContextRead, context: Context) {
    && context.integration == read.integration
    && if read.integration.status == SUCCEEDED
       then context.source == DATAHUB_MCP && context.glossary == read.glossary
            && context.lineageCurrent == read.lineageCurrent && context.detail == read.detail
       else context.source == REPLAY_FIXTURE && context.lineageCurrent && context.detail == ""
            && context.glossary == Some("Recognized revenue is the net settled amount after processing fees.")
  }

  // ---- The candidates ----

  /** Proposal i is the first one without an assessment. */
  ghost predicate FirstUnassessed(view: View, i: nat) {
    && i < |view.proposals|
    && view.proposals[i].id !in Ids(view.candidates)
    && forall j :: 0 <= j < i ==> view.proposals[j].id in Ids(view.candidates)
  }

  /** The assessment is of what the executor answered for the proposal; a run that raised counts
      as one that built nothing and matched nothing. */
  ghost predicate AssessmentOf(settings: Settings, d: Delivery, p: Proposal, context: Context, a: Assessment) {
    var answer := d.adapters.execute(d.caseId, p, context);
    && a.id == p.id && a.sourceField == p.sourceField && a.detail == p.detail
    && (answer.Reply? ==> a.execution == answer.value)
    && (answer.Raise? ==>
        a.execution == Execution(MISSING, Metrics(1_000_000_000.0, 1_000_000_000.0, 0.0, 1_000_000_000.0),
                                 Build(false, "")))
    && a.checks == Policy.Checks(settings.policy, a.execution, context.lineageCurrent)
    && a.outcome == if Passed(a.checks) then ELIGIBLE else REJECTED
  }

  ghost predicate FieldLe(a: string, b: string) {
    a <= b || exists k :: 0 <= k < |a| && k < |b| && a[..k] == b[..k] && a[k] < b[k]
  }

  ghost function Size(x: real): real {
    if x >= 0.0 then x else 0.0 - x
  }

  /** By total variance, then row variance, then source field, a comes no later than b. */
  ghost predicate NoLater(a: Assessment, b: Assessment) {
    var x, y := a.execution.metrics, b.execution.metrics;
    || Size(x.totalVariance) < Size(y.totalVariance)
    || (&& Size(x.totalVariance) == Size(y.totalVariance)
        && (|| Size(x.rowVariance) < Size(y.rowVariance)
            || (Size(x.rowVariance) == Size(y.rowVariance) && FieldLe(a.sourceField, b.sourceField))))
  }

  /** Candidate c of proposal i passed; no other that passed comes before it in the ranking, nor
      ties with it and was proposed earlier. */
  ghost predicate FirstChoice(view: View, c: Assessment, i: nat) {
    && i < |view.proposals|
    && c in view.candidates && c.outcome != REJECTED && c.id == view.proposals[i].id
    && forall o, j: nat :: o in view.candidates && o.outcome != REJECTED
                           && j < |view.proposals| && view.proposals[j].id == o.id ==>
                             NoLater(c, o) && (j < i ==> !NoLater(o, c))
  }

  ghost predicate NonePassed(view: View) {
    forall c :: c in view.candidates ==> c.outcome == REJECTED
  }

  // ---- The reasons of a refusal ----

  /** Check k of the candidate of proposal i did not pass. */
  ghost predicate FailedCheck(view: View, c: Assessment, i: nat, k: nat) {
    && c in view.candidates && i < |view.proposals| && view.proposals[i].id == c.id
    && k < |c.checks| && !c.checks[k].passed
  }

  /** How a failed check is worded: by its column and name, and by whether this call assessed it. */
  ghost predicate Words(view: View, recent: set<string>, c: Assessment, i: nat, k: nat, reason: Reason)
    requires FailedCheck(view, c, i, k)
  {
    reason == if c.id in recent then FailedNow(view.proposals[i].sourceField, c.checks[k].name)
              else FailedEarlier(view.proposals[i].sourceField, c.checks[k].name)
  }

  ghost predicate Before(a: (nat, nat), b: (nat, nat)) {
    a.0 < b.0 || (a.0 == b.0 && a.1 < b.1)
  }

  /** Every failed check of the first n proposals, in order of proposal and check, each once. */
  ghost predicate Lists(view: View, recent: set<string>, n: nat, reasons: seq<Reason>, at: seq<(nat, nat)>) {
    && |reasons| == |at|
    && (forall k, l :: 0 <= k < l < |at| ==> Before(at[k], at[l]))
    && (forall k :: 0 <= k < |at| ==> at[k].0 < n && Worded(view, recent, at[k], reasons[k]))
    && (forall c, i: nat, k: nat :: i < n && FailedCheck(view, c, i, k) ==> (i, k) in at)
  }

  ghost predicate Worded(view: View, recent: set<string>, at: (nat, nat), reason: Reason) {
    exists c :: FailedCheck(view, c, at.0, at.1) && Words(view, recent, c, at.0, at.1, reason)
  }

  /** The report names the first twenty of them. */
  ghost predicate RefusalReasons(view: View, recent: set<string>, reasons: seq<Reason>) {
    exists all, at ::
      && Lists(view, recent, |view.proposals|, all, at)
      && reasons == if |all| == 0 then [NothingSatisfiesPolicy] else all[..if |all| <= 20 then |all| else 20]
  }

  // ---- Why a step records what it records ----

  ghost predicate Reports(d: Delivery, report: Report, answer: Answer<Integration>) {
    d.adapters.writeReport(d.change.entityUrn, d.caseId, report) == answer
  }

  /** Which refusal is due. */
  ghost predicate RefusalDue(settings: Settings, d: Delivery, view: View, recent: set<string>, reasons: seq<Reason>) {
    || (&& IncidentInHand(settings, view) && view.context.None?
        && var read := d.adapters.fetchContext(d.change.entityUrn);
           read.Reply? && !ReadSuffices(settings, read.value) && reasons == [ContextIncomplete])
    || (&& ContextInHand(settings, view) && (view.generation.None? || view.proposals == [])
        && var generated := d.adapters.propose(d.change, view.context.value);
           && generated.Reply? && Usable(settings, generated.value.integration) && generated.value.candidates == []
           && reasons == [NoCompatibleCandidate])
    || (AllJudged(settings, view) && NonePassed(view) && RefusalReasons(view, recent, reasons))
  }

  /** Which integration a case in connected mode fails for. */
  ghost predicate FailureDue(settings: Settings, d: Delivery, view: View, cause: Integration) {
    && !settings.replayMode && cause.status != SUCCEEDED
    && (|| view.incident == Some(cause)
        || (&& ContextInHand(settings, view) && (view.generation.None? || view.proposals == [])
            && var generated := d.adapters.propose(d.change, view.context.value);
               generated.Reply? && generated.value.integration == cause)
        || (PatchInHand(settings, view) && view.writeback == Some(cause)))
  }

  /** What can raise: an adapter that is asked, or the step's own check of its inputs. */
  ghost predicate Raises(settings: Settings, d: Delivery, view: View, recent: set<string>) {
    || (view.incident.None? && d.adapters.raiseIncident(d.change.entityUrn, d.caseId).Raise?)
    || (IncidentInHand(settings, view) && view.context.None? && d.adapters.fetchContext(d.change.entityUrn).Raise?)
    || (&& ContextInHand(settings, view) && (view.generation.None? || view.proposals == [])
        && d.adapters.propose(d.change, view.context.value).Raise?)
    || (exists reasons ::
          RefusalDue(settings, d, view, recent, reasons) && Reports(d, Refused(reasons), Raise))
    || (&& ContextInHand(settings, view) && view.generation.Some? && Usable(settings, view.generation.value)
        && view.proposals != []
        && exists i, j :: 0 <= i < j < |view.proposals| && view.proposals[i].id == view.proposals[j].id)
    || (exists c, i: nat :: ChoiceDue(settings, view, c, i) && !CanPatch(d, view.proposals[i]))
    || (&& PatchInHand(settings, view) && view.writeback.None?
        && Reports(d, Validated(view.selected.value, view.patch.value.sha256), Raise))
    || (WritebackInHand(settings, view) && d.adapters.createDraft(d.caseId, view.patch.value).Raise?)
  }

  ghost predicate ChoiceDue(settings: Settings, view: View, c: Assessment, i: nat) {
    && AllJudged(settings, view) && (view.selected.None? || view.patch.None?)
    && i < |view.proposals| && FirstChoice(view, c, i)
  }

  ghost predicate CanPatch(d: Delivery, p: Proposal) {
    d.adapters.readModel.Reply? && SqlSafety.Patchable(p.sourceField, p.targetAlias, d.adapters.readModel.value)
  }

  /** The event is the one that is due: what must be so before it, what was answered, and what it
      says. */
  ghost predicate Explained(settings: Settings, d: Delivery, view: View, recent: set<string>, event: Event) {
    match event.body
    case IncidentRaised(incident) =>
      && event.state == Some(DETECTED) && view.incident.None?
      && d.adapters.raiseIncident(d.change.entityUrn, d.caseId) == Reply(incident)
    case ContextGathered(context) =>
      && event.state == Some(CONTEXT_GATHERED) && IncidentInHand(settings, view) && view.context.None?
      && var read := d.adapters.fetchContext(d.change.entityUrn);
         read.Reply? && ReadSuffices(settings, read.value) && ContextOf(read.value, context)
    case CandidatesReady(proposals, generation) =>
      && event.state == Some(CANDIDATES_READY) && ContextInHand(settings, view)
      && (view.generation.None? || view.proposals == [])
      && d.adapters.propose(d.change, view.context.value) == Reply(Generation(proposals, generation))
      && Usable(settings, generation) && proposals != []
    case ValidationStarted(count) =>
      && event.state == Some(VALIDATING) && ProposalsInHand(settings, view)
      && view.state == CANDIDATES_READY && count == |view.proposals|
    case CandidateAssessed(a) =>
      && event.state == Some(VALIDATING) && ProposalsInHand(settings, view) && view.state != CANDIDATES_READY
      && exists i: nat :: FirstUnassessed(view, i)
                     && AssessmentOf(settings, d, view.proposals[i], view.context.value, a)
    case PatchReady(selected, patch) =>
      && event.state == Some(PATCH_READY)
      && exists c, i: nat ::
           && ChoiceDue(settings, view, c, i) && selected == c.(outcome := SELECTED)
           && CanPatch(d, view.proposals[i])
           && selected.sourceField == view.proposals[i].sourceField
           && SqlSafety.PatchedFrom(selected.sourceField, d.adapters.readModel.value, patch.content)
           && patch.sha256 == settings.sha256(patch.content)
    case EvidenceWritten(written) =>
      && event.state == Some(PATCH_READY) && PatchInHand(settings, view) && view.writeback.None?
      && Reports(d, Validated(view.selected.value, view.patch.value.sha256), Reply(written))
    case PrAttempted(attempt) =>
      && event.state == Some(PATCH_READY) && WritebackInHand(settings, view)
      && d.adapters.createDraft(d.caseId, view.patch.value) == Reply(attempt)
      && attempt.integration.status != SUCCEEDED
    case PrOpened(draft) =>
      && event.state == Some(PR_OPEN) && WritebackInHand(settings, view)
      && d.adapters.createDraft(d.caseId, view.patch.value) == Reply(draft)
      && draft.integration.status == SUCCEEDED
    case CaseContained(reasons, written) =>
      && event.state == Some(CONTAINED) && RefusalDue(settings, d, view, recent, reasons)
      && Reports(d, Refused(reasons), Reply(written))
    case CaseFailed(cause) =>
      && event.state == Some(CaseState.FAILED)
      && if cause.Some? then FailureDue(settings, d, view, cause.value) else Raises(settings, d, view, recent)
    case _ => false
  }

  // ---- The ranking ----

  /** Of two candidates the one that does not rank after the other comes no later. */
  lemma {:induction false} RankMeans(a: Assessment, b: Assessment)
    ensures NoLater(a, b) <==> !RanksBefore(b, a)
  {
    Canonical.TextLeMeans(a.sourceField, b.sourceField);
    Canonical.TextLeTotal(a.sourceField, b.sourceField);
    assert FieldLe(a.sourceField, b.sourceField) <==> Canonical.TextLe(a.sourceField, b.sourceField);
    hide FieldLe;
  }

  lemma {:induction false} NotBeforeTransitive(a: Assessment, b: Assessment, c: Assessment)
    requires !RanksBefore(a, b) && !RanksBefore(b, c)
    ensures !RanksBefore(a, c)
  {
    Canonical.TextLeTotal(a.sourceField, b.sourceField);
    Canonical.TextLeTotal(b.sourceField, c.sourceField);
    Canonical.TextLeTotal(a.sourceField, c.sourceField);
    if Canonical.TextLe(c.sourceField, b.sourceField) && Canonical.TextLe(b.sourceField, a.sourceField) {
      Canonical.TextLeTransitive(c.sourceField, b.sourceField, a.sourceField);
    }
    if Canonical.TextLe(a.sourceField, c.sourceField) && Canonical.TextLe(c.sourceField, b.sourceField) {
      Canonical.TextLeTransitive(a.sourceField, c.sourceField, b.sourceField);
    }
  }

  /** Of the first n proposals' candidates that passed, the best is the first of the least. */
  ghost predicate FirstBest(proposals: seq<Proposal>, candidates: seq<Assessment>, n: nat, best: Assessment, i: nat) {
    && i < n <= |proposals|
    && Assessed(candidates, proposals[i].id) == Some(best) && best.outcome != REJECTED
    && forall j: nat :: j < n && Passing(candidates, proposals[j].id) ==>
         var o := Assessed(candidates, proposals[j].id).value;
         !RanksBefore(o, best) && (j < i ==> RanksBefore(best, o))
  }

  ghost predicate Passing(candidates: seq<Assessment>, id: string) {
    Assessed(candidates, id).Some? && Assessed(candidates, id).value.outcome != REJECTED
  }

  lemma {:induction false} BestIsFirst(proposals: seq<Proposal>, candidates: seq<Assessment>, n: nat) returns (i: nat)
    requires n <= |proposals| && (forall j :: 0 <= j < n ==> Assessed(candidates, proposals[j].id).Some?)
    requires Eligible(proposals[..n], candidates) != []
    ensures FirstBest(proposals, candidates, n, Best(Eligible(proposals[..n], candidates)), i)
  {
    hide RanksBefore, Assessed, Eligible, FirstBest;
    if n == 0 {
      NoneOfNone(proposals, candidates);
    } else {
      var last := Assessed(candidates, proposals[n - 1].id).value;
      var earlier := Eligible(proposals[..n - 1], candidates);
      AdvanceSteps.EligibleStep(proposals, n - 1, candidates);
      if earlier == [] {
        NothingEligible(proposals, candidates, n - 1);
        assert last.outcome != REJECTED && Eligible(proposals[..n], candidates) == [] + [last] == [last];
        i := n - 1;
        FirstAlone(proposals, candidates, n);
      } else {
        var k := BestIsFirst(proposals, candidates, n - 1);
        BestStep(earlier, last);
        assert earlier + [] == earlier;
        i := if last.outcome != REJECTED && RanksBefore(last, Best(earlier)) then n - 1 else k;
        FirstBestStep(proposals, candidates, n, Best(earlier), k);
      }
    }
  }

  lemma {:induction false} NoneOfNone(proposals: seq<Proposal>, candidates: seq<Assessment>)
    ensures Eligible(proposals[..0], candidates) == []
  {
  }

  lemma {:induction false} NothingEligible(proposals: seq<Proposal>, candidates: seq<Assessment>, n: nat)
    requires n <= |proposals| && Eligible(proposals[..n], candidates) == []
    ensures forall j :: 0 <= j < n ==> !Passing(candidates, proposals[j].id)
  {
    if n > 0 {
      assert proposals[..n][..n - 1] == proposals[..n - 1];
      NothingEligible(proposals, candidates, n - 1);
    }
  }

  lemma {:induction false} BestStep(earlier: seq<Assessment>, last: Assessment)
    requires earlier != []
    ensures Best(earlier + [last]) == if RanksBefore(last, Best(earlier)) then last else Best(earlier)
  {
    hide RanksBefore;
    assert (earlier + [last])[..|earlier|] == earlier;
  }

  lemma {:induction false} FirstAlone(proposals: seq<Proposal>, candidates: seq<Assessment>, n: nat)
    requires 0 < n <= |proposals| && Passing(candidates, proposals[n - 1].id)
    requires forall j :: 0 <= j < n - 1 ==> !Passing(candidates, proposals[j].id)
    ensures FirstBest(proposals, candidates, n, Assessed(candidates, proposals[n - 1].id).value, n - 1)
  {
    hide Assessed;
    var best := Assessed(candidates, proposals[n - 1].id).value;
    RankMeans(best, best);
    Canonical.TextLeTotal(best.sourceField, best.sourceField);
  }

  lemma {:induction false} FirstBestStep(proposals: seq<Proposal>, candidates: seq<Assessment>, n: nat,
        best: Assessment, k: nat)
    requires 0 < n <= |proposals| && FirstBest(proposals, candidates, n - 1, best, k)
    requires Assessed(candidates, proposals[n - 1].id).Some?
    ensures var last := Assessed(candidates, proposals[n - 1].id).value;
            if last.outcome != REJECTED && RanksBefore(last, best)
            then FirstBest(proposals, candidates, n, last, n - 1)
            else FirstBest(proposals, candidates, n, best, k)
  {
    hide RanksBefore, Assessed;
    var last := Assessed(candidates, proposals[n - 1].id).value;
    if last.outcome != REJECTED && RanksBefore(last, best) {
      RankMeans(last, last);
      NeverBeforeItself(last);
      forall j: nat | j < n - 1 && Passing(candidates, proposals[j].id)
        ensures var o := Assessed(candidates, proposals[j].id).value;
                !RanksBefore(o, last) && RanksBefore(last, o)
      {
        var o := Assessed(candidates, proposals[j].id).value;
        BeforeAll(last, best, o);
      }
    }
  }

  lemma {:induction false} NeverBeforeItself(a: Assessment)
    ensures !RanksBefore(a, a)
  {
  }

  lemma {:induction false} BeforeAll(last: Assessment, best: Assessment, o: Assessment)
    requires RanksBefore(last, best) && !RanksBefore(o, best)
    ensures RanksBefore(last, o) && !RanksBefore(o, last)
  {
    hide RanksBefore;
    if !RanksBefore(last, o) {
      NotBeforeTransitive(last, o, best);
    }
    RankingIsTransitive(o, best, last);
  }

  // ---- The reasons ----

  /** What is known of candidates once every proposal has its assessment. */
  ghost predicate EachOnce(view: View) {
    && (forall i, j :: 0 <= i < j < |view.proposals| ==> view.proposals[i].id != view.proposals[j].id)
    && Distinct(Ids(view.candidates))
    && EachAssessed(view)
  }

  /** One and only one candidate is of a given proposal. */
  lemma {:induction false} CandidateOf(view: View, i: nat) returns (a: Assessment)
    requires EachOnce(view) && i < |view.proposals|
    ensures Assessed(view.candidates, view.proposals[i].id) == Some(a)
    ensures a in view.candidates && a.id == view.proposals[i].id
    ensures forall c :: c in view.candidates && c.id == view.proposals[i].id ==> c == a
  {
    hide Assessed, Distinct;
    AssessedInIds(view.candidates, view.proposals[i].id);
    AssessedIsThere(view.candidates, view.proposals[i].id);
    a := Assessed(view.candidates, view.proposals[i].id).value;
    forall c | c in view.candidates && c.id == view.proposals[i].id ensures c == a {
      DistinctIsFound(view.candidates, c);
    }
  }

  function Paired(i: nat, at: seq<nat>): (pairs: seq<(nat, nat)>)
    ensures |pairs| == |at|
  {
    seq(|at|, k requires 0 <= k < |at| => (i, at[k]))
  }

  lemma {:induction false} ReasonsListed(view: View, recent: set<string>, n: nat) returns (at: seq<(nat, nat)>)
    requires EachOnce(view) && n <= |view.proposals|
    ensures Lists(view, recent, n, Reasons(view.proposals[..n], view.candidates, recent), at)
  {
    hide Lists, ListsOne, EachOnce, Policy.FailedNames;
    if n == 0 {
      at := [];
      NothingListed(view, recent);
    } else {
      var earlier := ReasonsListed(view, recent, n - 1);
      var a := CandidateOf(view, n - 1);
      var failing := Policy.FailedNamesMeans(a.checks);
      AdvanceSteps.ReasonsStep(view.proposals, n - 1, view.candidates, recent);
      at := earlier + Paired(n - 1, failing);
      ListsCandidate(view, recent, n - 1, a, failing);
      ListsStep(view, recent, n - 1, Reasons(view.proposals[..n - 1], view.candidates, recent), earlier,
        Recovery.Worded(view.proposals[n - 1], Policy.FailedNames(a.checks), view.proposals[n - 1].id in recent),
        failing);
    }
  }

  lemma {:induction false} NothingListed(view: View, recent: set<string>)
    ensures Lists(view, recent, 0, Reasons(view.proposals[..0], view.candidates, recent), [])
  {
  }

  /** The failing checks of one candidate, all of them, as they are worded. */
  ghost predicate ListsOne(view: View, recent: set<string>, i: nat, words: seq<Reason>, failing: seq<nat>) {
    && |words| == |failing|
    && (forall k, l :: 0 <= k < l < |failing| ==> failing[k] < failing[l])
    && (forall k :: 0 <= k < |failing| ==> Worded(view, recent, (i, failing[k]), words[k]))
    && (forall c, k: nat :: FailedCheck(view, c, i, k) ==> k in failing)
  }

  lemma {:induction false} ListsCandidate(view: View, recent: set<string>, i: nat, a: Assessment, failing: seq<nat>)
    requires i < |view.proposals| && a in view.candidates && a.id == view.proposals[i].id
    requires forall c :: c in view.candidates && c.id == view.proposals[i].id ==> c == a
    requires Policy.NamesAt(a.checks, Policy.FailedNames(a.checks), failing)
    ensures var words := Recovery.Worded(view.proposals[i], Policy.FailedNames(a.checks),
                view.proposals[i].id in recent);
            ListsOne(view, recent, i, words, failing)
  {
    hide Policy.FailedNames;
    var words := Recovery.Worded(view.proposals[i], Policy.FailedNames(a.checks), view.proposals[i].id in recent);
    forall k | 0 <= k < |failing| ensures Worded(view, recent, (i, failing[k]), words[k]) {
      assert FailedCheck(view, a, i, failing[k]);
      assert Words(view, recent, a, i, failing[k], words[k]);
    }
  }

  lemma {:induction false} ListsStep(view: View, recent: set<string>, i: nat, earlier: seq<Reason>,
        at: seq<(nat, nat)>, words: seq<Reason>, failing: seq<nat>)
    requires Lists(view, recent, i, earlier, at) && ListsOne(view, recent, i, words, failing)
    ensures Lists(view, recent, i + 1, earlier + words, at + Paired(i, failing))
  {
    hide Worded, FailedCheck;
    var pairs := Paired(i, failing);
    var longer, all := at + pairs, earlier + words;
    forall k | 0 <= k < |longer| ensures longer[k].0 < i + 1 && Worded(view, recent, longer[k], all[k]) {
      if k < |at| {
        assert longer[k] == at[k] && all[k] == earlier[k];
      } else {
        assert longer[k] == (i, failing[k - |at|]) && all[k] == words[k - |at|];
      }
    }
    forall k, l | 0 <= k < l < |longer| ensures Before(longer[k], longer[l]) {
      if l < |at| {
        assert Before(at[k], at[l]);
      } else if k < |at| {
        assert at[k].0 < i;
      } else {
        assert failing[k - |at|] < failing[l - |at|];
      }
    }
    forall c, h: nat, k: nat | h < i + 1 && FailedCheck(view, c, h, k) ensures (h, k) in longer {
      if h < i {
        assert (h, k) in at;
      } else {
        var l :| 0 <= l < |failing| && failing[l] == k;
        assert longer[|at| + l] == (h, k);
      }
    }
  }

  lemma {:induction false} ReasonsExplained(view: View, recent: set<string>)
    requires EachOnce(view)
    ensures RefusalReasons(view, recent, Concise(Reasons(view.proposals, view.candidates, recent)))
  {
    var at := ReasonsListed(view, recent, |view.proposals|);
    hide Lists, EachOnce, Reasons;
    assert view.proposals[..|view.proposals|] == view.proposals;
    var all := Reasons(view.proposals, view.candidates, recent);
    assert Lists(view, recent, |view.proposals|, all, at);
    assert |all| > 20 || all[..|all|] == all;
  }

  // ---- Each step is explained ----

  /** A case that can go on, as the invariant has it. */
  ghost predicate Resumable(settings: Settings, view: View) {
    && view.state in {DETECTED, CONTEXT_GATHERED, CANDIDATES_READY, VALIDATING, PATCH_READY}
    && Shape(settings, view) && CandidatesOk(settings, view) && Distinct(Ids(view.candidates))
  }

  /** The step is explained, and the store takes it. */
  ghost predicate Due(settings: Settings, d: Delivery, view: View, recent: set<string>, event: Event) {
    && Explained(settings, d, view, recent, event)
    && event.state.Some? && ValidTransition(Some(view.state), event.state.value)
  }

  lemma {:induction false} ContainDue(settings: Settings, d: Delivery, view: View, recent: set<string>,
        reasons: seq<Reason>)
    requires Resumable(settings, view) && RefusalDue(settings, d, view, recent, Concise(reasons))
    ensures Due(settings, d, view, recent, Contain(d, reasons))
  {
    hide RefusalDue, Concise, Shape, CandidatesOk;
  }

  lemma {:induction false} IncidentDue(settings: Settings, d: Delivery, view: View, recent: set<string>)
    requires Resumable(settings, view) && view.incident.None?
    ensures Due(settings, d, view, recent, RaiseIncident(d))
  {
    hide CandidatesOk;
  }

  lemma {:induction false} ContextDue(settings: Settings, d: Delivery, view: View, recent: set<string>)
    requires Resumable(settings, view) && IncidentInHand(settings, view) && view.context.None?
    ensures Due(settings, d, view, recent, GatherContext(settings, d))
  {
    hide CandidatesOk, Concise, Explained;
    var answer := d.adapters.fetchContext(d.change.entityUrn);
    if answer.Raise? {
      NoContext(settings, d, view, recent);
    } else if ReadSuffices(settings, answer.value) {
      ContextFound(settings, d, view, recent, answer.value);
    } else {
      ConciseOne(ContextIncomplete);
      ContainDue(settings, d, view, recent, [ContextIncomplete]);
    }
  }

  lemma {:induction false} NoContext(settings: Settings, d: Delivery, view: View, recent: set<string>)
    requires IncidentInHand(settings, view) && view.context.None? && d.adapters.fetchContext(d.change.entityUrn).Raise?
    ensures Explained(settings, d, view, recent, CRASH)
  {
    hide RefusalDue, ChoiceDue, CanPatch;
  }

  lemma {:induction false} ContextFound(settings: Settings, d: Delivery, view: View, recent: set<string>,
        read: ContextRead)
    requires IncidentInHand(settings, view) && view.context.None? && ReadSuffices(settings, read)
    requires d.adapters.fetchContext(d.change.entityUrn) == Reply(read)
    ensures Sufficient(ContextFrom(settings, read))
    ensures Explained(settings, d, view, recent,
                      Event(ContextGathered(ContextFrom(settings, read)), Some(CONTEXT_GATHERED)))
  {
    hide IncidentInHand;
  }

  lemma {:induction false} ConciseOne(reason: Reason)
    ensures Concise([reason]) == [reason]
  {
  }

  lemma {:induction false} GenerateDue(settings: Settings, d: Delivery, view: View, recent: set<string>)
    requires Resumable(settings, view) && ContextInHand(settings, view)
    requires view.generation.None? || view.proposals == []
    ensures Due(settings, d, view, recent, Generate(settings, d, view.context.value))
  {
    hide CandidatesOk, Concise;
    var answer := d.adapters.propose(d.change, view.context.value);
    if answer.Reply? && Usable(settings, answer.value.integration) && answer.value.candidates == [] {
      ConciseOne(NoCompatibleCandidate);
      ContainDue(settings, d, view, recent, [NoCompatibleCandidate]);
    }
  }

  lemma {:induction false} FirstPending(view: View) returns (i: nat)
    requires Pending(view.proposals, view.candidates) != []
    ensures FirstUnassessed(view, i) && i < |view.proposals|
    ensures Pending(view.proposals, view.candidates)[0] == view.proposals[i]
  {
    hide Assessed, Pending;
    i := 0;
    while i < |view.proposals| && Assessed(view.candidates, view.proposals[i].id).Some?
      invariant i <= |view.proposals|
      invariant forall j :: 0 <= j < i ==> Assessed(view.candidates, view.proposals[j].id).Some?
    {
      i := i + 1;
    }
    AdvanceSteps.PendingFirst(view.proposals, view.candidates, i);
    forall j | 0 <= j < |view.proposals|
      ensures view.proposals[j].id in Ids(view.candidates) <==>
              Assessed(view.candidates, view.proposals[j].id).Some?
    {
      AssessedInIds(view.candidates, view.proposals[j].id);
    }
  }

  lemma {:induction false} AssessmentDue(settings: Settings, d: Delivery, view: View, recent: set<string>)
    requires Resumable(settings, view) && ProposalsInHand(settings, view) && view.state != CANDIDATES_READY
    requires Pending(view.proposals, view.candidates) != []
    ensures var a := Assess(settings, d, Pending(view.proposals, view.candidates)[0], view.context.value);
            Due(settings, d, view, recent, Event(CandidateAssessed(a), Some(VALIDATING)))
  {
    hide ProposalsInHand, Pending, Assess, FirstUnassessed;
    NonePending(view);
    var i := FirstPending(view);
    AssessMeans(settings, d, view.proposals[i], view.context.value);
  }

  lemma {:induction false} AssessMeans(settings: Settings, d: Delivery, p: Proposal, context: Context)
    ensures AssessmentOf(settings, d, p, context, Assess(settings, d, p, context))
  {
  }

  lemma {:induction false} EligibleMeans(settings: Settings, view: View)
    requires CandidatesOk(settings, view) && Distinct(Ids(view.candidates))
    ensures forall a :: a in Eligible(view.proposals, view.candidates) <==>
                        a in view.candidates && a.outcome != REJECTED
    ensures Eligible(view.proposals, view.candidates) == [] <==> NonePassed(view)
  {
    EligibleAreCandidates(view.proposals, view.candidates);
    var eligible := Eligible(view.proposals, view.candidates);
    assert eligible != [] ==> eligible[0] in eligible;
    hide Judged, Distinct, Eligible, Selection;
    forall a | a in view.candidates && a.outcome != REJECTED ensures a in Eligible(view.proposals, view.candidates) {
      assert Proposed(view.proposals, a);
      CandidatesAreEligible(view.proposals, view.candidates, a);
    }
  }

  lemma {:induction false} RefusalIsDue(settings: Settings, d: Delivery, view: View, recent: set<string>)
    requires Resumable(settings, view) && AllJudged(settings, view)
    requires Eligible(view.proposals, view.candidates) == []
    ensures Due(settings, d, view, recent, Contain(d, Reasons(view.proposals, view.candidates, recent)))
  {
    EligibleMeans(settings, view);
    ReasonsExplained(view, recent);
    hide Resumable, Eligible, Reasons, Concise, RefusalReasons;
    assert NonePassed(view);
    ContainDue(settings, d, view, recent, Reasons(view.proposals, view.candidates, recent));
  }

  /** The best eligible candidate is the first choice, and its proposal is the one rendered. */
  lemma {:induction false} ChoiceIsFirst(settings: Settings, view: View) returns (i: nat)
    requires CandidatesOk(settings, view) && EachOnce(view) && Eligible(view.proposals, view.candidates) != []
    ensures var best := Best(Eligible(view.proposals, view.candidates));
            && FirstChoice(view, best, i)
            && ProposalOf(view.proposals, best.id) == Some(view.proposals[i])
            && best.sourceField == view.proposals[i].sourceField
  {
    hide Best, Eligible, Assessed, FirstBest, Judged, Distinct, ProposalOf, Selection, RanksBefore, NoLater;
    assert view.proposals[..|view.proposals|] == view.proposals;
    forall j | 0 <= j < |view.proposals| ensures Assessed(view.candidates, view.proposals[j].id).Some? {
      var a := CandidateOf(view, j);
    }
    i := BestIsFirst(view.proposals, view.candidates, |view.proposals|);
    var best := Best(Eligible(view.proposals, view.candidates));
    BestIsChoice(view, best, i);
    assert Proposed(view.proposals, best);
    ProposalAt(view, best, i);
  }

  lemma {:induction false} BestIsChoice(view: View, best: Assessment, i: nat)
    requires EachOnce(view) && FirstBest(view.proposals, view.candidates, |view.proposals|, best, i)
    ensures FirstChoice(view, best, i)
  {
    hide RanksBefore, NoLater, Assessed, Distinct;
    var own := CandidateOf(view, i);
    assert best == own;
    forall o, j: nat | o in view.candidates && o.outcome != REJECTED
                       && j < |view.proposals| && view.proposals[j].id == o.id
      ensures NoLater(best, o) && (j < i ==> !NoLater(o, best))
    {
      var found := CandidateOf(view, j);
      assert found == o && Passing(view.candidates, view.proposals[j].id);
      RankMeans(best, o);
      RankMeans(o, best);
    }
  }

  lemma {:induction false} ProposalAt(view: View, best: Assessment, i: nat)
    requires EachOnce(view) && i < |view.proposals| && best.id == view.proposals[i].id
    requires Proposed(view.proposals, best)
    ensures ProposalOf(view.proposals, best.id) == Some(view.proposals[i])
    ensures best.sourceField == view.proposals[i].sourceField
  {
    hide Distinct;
    var p :| p in view.proposals && p.id == best.id && p.sourceField == best.sourceField;
    var j :| 0 <= j < |view.proposals| && view.proposals[j] == p;
    assert j == i;
    FoundFirst(view.proposals, i);
  }

  lemma {:induction false} FoundFirst(proposals: seq<Proposal>, i: nat)
    requires i < |proposals| && forall j, k :: 0 <= j < k < |proposals| ==> proposals[j].id != proposals[k].id
    ensures ProposalOf(proposals, proposals[i].id) == Some(proposals[i])
  {
    if i > 0 {
      FoundFirst(proposals[1..], i - 1);
    }
  }

  /** Before a selection the case is in VALIDATING. */
  lemma {:induction false} SelectsFromValidating(settings: Settings, view: View)
    requires Resumable(settings, view) && AllJudged(settings, view) && (view.selected.None? || view.patch.None?)
    ensures view.state == VALIDATING
  {
    hide CandidatesOk, Distinct;
  }

  lemma {:induction false} CannotPatch(settings: Settings, d: Delivery, view: View, recent: set<string>,
        c: Assessment, i: nat)
    requires ChoiceDue(settings, view, c, i) && !CanPatch(d, view.proposals[i]) && view.state == VALIDATING
    ensures Due(settings, d, view, recent, CRASH)
  {
    hide ChoiceDue, CanPatch, RefusalDue;
  }

  lemma {:induction false} CanPatchIt(settings: Settings, d: Delivery, view: View, recent: set<string>, c: Assessment,
        i: nat, patch: Patch)
    requires ChoiceDue(settings, view, c, i) && CanPatch(d, view.proposals[i]) && view.state == VALIDATING
    requires c.sourceField == view.proposals[i].sourceField && patch.sha256 == settings.sha256(patch.content)
    requires SqlSafety.PatchedFrom(c.sourceField, d.adapters.readModel.value, patch.content)
    ensures Due(settings, d, view, recent, Event(PatchReady(c.(outcome := SELECTED), patch), Some(PATCH_READY)))
  {
    hide ChoiceDue, SqlSafety.Patchable, SqlSafety.PatchedFrom;
  }

  lemma {:induction false} ChoiceInRange(settings: Settings, view: View, c: Assessment, i: nat)
    requires ChoiceDue(settings, view, c, i)
    ensures i < |view.proposals|
  {
  }

  lemma {:induction false} PatchDue(settings: Settings, d: Delivery, view: View, recent: set<string>)
    requires Resumable(settings, view) && AllJudged(settings, view)
    requires Eligible(view.proposals, view.candidates) != [] && (view.selected.None? || view.patch.None?)
    ensures Due(settings, d, view, recent, SelectPatch(settings, d, view, Eligible(view.proposals, view.candidates)))
  {
    SelectsFromValidating(settings, view);
    var i := ChoiceIsFirst(settings, view);
    hide Best, Eligible, ProposalOf, FirstChoice, AllJudged, Resumable, Due, SqlSafety.RenderDbtPatch,
      SqlSafety.Patchable, SqlSafety.PatchedFrom;
    var best := Best(Eligible(view.proposals, view.candidates));
    assert ChoiceDue(settings, view, best, i);
    hide ChoiceDue;
    ChoiceInRange(settings, view, best, i);
    var p := view.proposals[i];
    if d.adapters.readModel.Reply? {
      SqlSafety.PatchSucceedsExactlyWhen(p, d.adapters.readModel.value);
    }
    if CanPatch(d, p) {
      var content := SqlSafety.RenderDbtPatch(p, d.adapters.readModel.value).value;
      SqlSafety.RenderedIsPatched(p, d.adapters.readModel.value);
      CanPatchIt(settings, d, view, recent, best, i, Patch(content, settings.sha256(content)));
    } else {
      CannotPatch(settings, d, view, recent, best, i);
    }
  }

  /** Past the selection: the evidence, its failure, or the draft. */
  lemma {:induction false} ShipDue(settings: Settings, d: Delivery, view: View, recent: set<string>)
    requires Resumable(settings, view) && PatchInHand(settings, view)
    ensures if view.writeback.None?
            then Due(settings, d, view, recent, WriteEvidence(d, view.selected.value, view.patch.value))
            else if !Ready(settings, view.writeback.value)
            then Due(settings, d, view, recent, NotReady(view.writeback.value))
            else Due(settings, d, view, recent, CreatePullRequest(d, view.patch.value))
  {
    hide AllJudged, CandidatesOk;
  }

  lemma {:induction false} ValidateDue(settings: Settings, d: Delivery, view: View, recent: set<string>)
    requires Resumable(settings, view) && ProposalsInHand(settings, view)
    ensures var step := Validate(settings, d, view, view.context.value, recent);
            step.Some? && Due(settings, d, view, recent, step.value)
  {
    hide Validate, Assess, Reasons, Pending, Eligible, SelectPatch, WriteEvidence, CreatePullRequest, Contain,
      CandidatesOk, Distinct, NotReady;
    AdvanceSteps.ValidatesInOrder(settings, d, view, view.context.value, recent);
    NonePending(view);
    SelectedIsEligible(settings, view);
    if view.state == CANDIDATES_READY {
    } else if Pending(view.proposals, view.candidates) != [] {
      AssessmentDue(settings, d, view, recent);
    } else {
      assert AllJudged(settings, view);
      hide ProposalsInHand, Explained;
      if Eligible(view.proposals, view.candidates) == [] {
        RefusalIsDue(settings, d, view, recent);
      } else if view.selected.None? || view.patch.None? {
        PatchDue(settings, d, view, recent);
      } else {
        ShipDue(settings, d, view, recent);
      }
    }
  }

  /** Once a candidate was selected none is left to assess, and there is one that passed. */
  lemma {:induction false} SelectedIsEligible(settings: Settings, view: View)
    requires Resumable(settings, view)
    ensures view.state == PATCH_READY ==>
            EachAssessed(view) && Eligible(view.proposals, view.candidates) != []
  {
    hide Eligible, Judged, RanksBefore, Patched, Proposed, Shape, Distinct, EachAssessed, NonePassed;
    EligibleMeans(settings, view);
    if view.state == PATCH_READY {
      SelectedPassed(settings, view);
    }
  }

  lemma {:induction false} SelectedPassed(settings: Settings, view: View)
    requires Selection(settings, view)
    ensures !NonePassed(view)
  {
    hide Judged, RanksBefore, Patched, EachAssessed;
    var k: nat :| OnlySelected(view.candidates, view.selected.value, k);
    assert view.candidates[k] in view.candidates;
    SelectedOutcome(settings, view);
  }

  lemma {:induction false} SelectedOutcome(settings: Settings, view: View)
    requires Selection(settings, view)
    ensures view.selected.value.outcome != REJECTED
  {
    hide RanksBefore, Patched, EachAssessed, OnlySelected;
  }

  /** What the workflow decides on is due, and it always decides on something. */
  lemma {:induction false} DecideDue(settings: Settings, d: Delivery, view: View, recent: set<string>)
    requires Resumable(settings, view)
    ensures var step := Decide(settings, d, view, recent);
            step.Some? && Due(settings, d, view, recent, step.value)
  {
    hide Validate, RaiseIncident, GatherContext, Generate, CandidatesOk;
    if view.incident.None? {
      IncidentDue(settings, d, view, recent);
    } else if !Ready(settings, view.incident.value) {
    } else if view.context.None? {
      ContextDue(settings, d, view, recent);
    } else if view.generation.None? || view.proposals == [] {
      GenerateDue(settings, d, view, recent);
    } else if !DistinctIds(view.proposals) {
      ClashDue(settings, d, view, recent);
    } else {
      ValidateDue(settings, d, view, recent);
    }
  }

  lemma {:induction false} ClashDue(settings: Settings, d: Delivery, view: View, recent: set<string>)
    requires Resumable(settings, view) && ContextInHand(settings, view) && view.generation.Some?
    requires Usable(settings, view.generation.value) && view.proposals != [] && !DistinctIds(view.proposals)
    ensures Due(settings, d, view, recent, CRASH)
  {
    hide CandidatesOk, RefusalDue, ChoiceDue, CanPatch;
  }

  // ---- And nothing else is recorded ----

  ghost predicate Ordered(at: seq<(nat, nat)>) {
    forall k, l :: 0 <= k < l < |at| ==> Before(at[k], at[l])
  }

  lemma {:induction false} LastIsLargest(at: seq<(nat, nat)>, x: (nat, nat))
    requires Ordered(at) && x in at
    ensures x == at[|at| - 1] || Before(x, at[|at| - 1])
  {
  }

  lemma {:induction false} InitIsRest(at: seq<(nat, nat)>, x: (nat, nat))
    requires Ordered(at) && at != []
    ensures x in at[..|at| - 1] <==> x in at && x != at[|at| - 1]
  {
    var init, last := at[..|at| - 1], at[|at| - 1];
    assert at == init + [last];
    if x in init {
      var k :| 0 <= k < |init| && init[k] == x;
      assert Before(at[k], last);
    }
  }

  /** Two ordered listings of the same places are one. */
  lemma {:induction false} SameOrder(a: seq<(nat, nat)>, b: seq<(nat, nat)>)
    requires Ordered(a) && Ordered(b) && forall x :: x in a <==> x in b
    ensures a == b
  {
    hide Before;
    assert b != [] ==> b[0] in b;
    if a != [] {
      assert a[0] in a && a[0] in b;
      var x, y := a[|a| - 1], b[|b| - 1];
      LastIsLargest(a, y);
      LastIsLargest(b, x);
      NotBoth(x, y);
      var first, second := a[..|a| - 1], b[..|b| - 1];
      forall z ensures z in first <==> z in second {
        InitIsRest(a, z);
        InitIsRest(b, z);
      }
      SameOrder(first, second);
      assert a == first + [x] && b == second + [y];
    }
  }

  lemma {:induction false} NotBoth(x: (nat, nat), y: (nat, nat))
    ensures !(Before(x, y) && Before(y, x))
  {
  }

  lemma {:induction false} ListedInOther(view: View, recent: set<string>, n: nat, reasons: seq<Reason>,
        at: seq<(nat, nat)>, others: seq<Reason>, other: seq<(nat, nat)>)
    requires Lists(view, recent, n, reasons, at) && Lists(view, recent, n, others, other)
    ensures forall x :: x in at ==> x in other
  {
    hide FailedCheck;
    forall x | x in at ensures x in other {
      var k :| 0 <= k < |at| && at[k] == x;
      assert Worded(view, recent, x, reasons[k]);
      var c :| FailedCheck(view, c, x.0, x.1) && Words(view, recent, c, x.0, x.1, reasons[k]);
      assert x == (x.0, x.1);
    }
  }

  lemma {:induction false} OneWording(view: View, recent: set<string>, at: (nat, nat), a: Reason, b: Reason)
    requires EachOnce(view) && Worded(view, recent, at, a) && Worded(view, recent, at, b)
    ensures a == b
  {
    hide EachOnce;
    var c :| FailedCheck(view, c, at.0, at.1) && Words(view, recent, c, at.0, at.1, a);
    var e :| FailedCheck(view, e, at.0, at.1) && Words(view, recent, e, at.0, at.1, b);
    var only := CandidateOf(view, at.0);
    assert c == only && e == only;
  }

  /** There is one list of failed checks. */
  lemma {:induction false} OneListing(view: View, recent: set<string>, n: nat, reasons: seq<Reason>,
        at: seq<(nat, nat)>, others: seq<Reason>, other: seq<(nat, nat)>)
    requires EachOnce(view)
    requires Lists(view, recent, n, reasons, at) && Lists(view, recent, n, others, other)
    ensures reasons == others
  {
    ListedInOther(view, recent, n, reasons, at, others, other);
    ListedInOther(view, recent, n, others, other, reasons, at);
    hide EachOnce, Worded, FailedCheck, Before;
    SameOrder(at, other);
    forall k | 0 <= k < |reasons| ensures reasons[k] == others[k] {
      OneWording(view, recent, at[k], reasons[k], others[k]);
    }
  }

  lemma {:induction false} OneRefusal(view: View, recent: set<string>, reasons: seq<Reason>)
    requires EachOnce(view) && RefusalReasons(view, recent, reasons)
    ensures reasons == Concise(Reasons(view.proposals, view.candidates, recent))
  {
    hide Lists, EachOnce, Reasons;
    var mine := ReasonsListed(view, recent, |view.proposals|);
    assert view.proposals[..|view.proposals|] == view.proposals;
    var n := |view.proposals|;
    var all, at :| Lists(view, recent, n, all, at)
                   && reasons == if |all| == 0 then [NothingSatisfiesPolicy]
                                 else all[..if |all| <= 20 then |all| else 20];
    OneListing(view, recent, n, all, at, Reasons(view.proposals, view.candidates, recent), mine);
    assert |all| > 20 || all[..|all|] == all;
  }

  /** There is one first choice. */
  lemma {:induction false} OneChoice(view: View, c: Assessment, i: nat, e: Assessment, j: nat)
    requires EachOnce(view) && FirstChoice(view, c, i) && FirstChoice(view, e, j)
    ensures c == e && i == j
  {
    hide NoLater, EachOnce;
    assert i == j;
    var only := CandidateOf(view, i);
  }

  /** And one patched text of a model. */
  lemma {:induction false} OnePatch(column: string, model: string, a: string, b: string)
    requires SqlSafety.PatchedFrom(column, model, a) && SqlSafety.PatchedFrom(column, model, b)
    ensures a == b
  {
    hide SqlSafety.Occurrences, SqlSafety.Default, SqlSafety.Occurs;
  }

  lemma {:induction false} RefusalDecided(settings: Settings, d: Delivery, view: View, recent: set<string>,
        reasons: seq<Reason>) returns (given: seq<Reason>)
    requires Resumable(settings, view) && RefusalDue(settings, d, view, recent, reasons)
    ensures Concise(given) == reasons && Decide(settings, d, view, recent) == Some(Contain(d, given))
  {
    if AllJudged(settings, view) && NonePassed(view) {
      given := Reasons(view.proposals, view.candidates, recent);
      RefusalLast(settings, d, view, recent, reasons);
    } else {
      given := reasons;
      hide Contain, Shape, CandidatesOk, Validate;
      if view.context.None? {
        ConciseOne(ContextIncomplete);
      } else {
        ConciseOne(NoCompatibleCandidate);
      }
    }
  }

  lemma {:induction false} RefusalLast(settings: Settings, d: Delivery, view: View, recent: set<string>,
        reasons: seq<Reason>)
    requires Resumable(settings, view) && AllJudged(settings, view) && NonePassed(view)
    requires RefusalDue(settings, d, view, recent, reasons)
    ensures var given := Reasons(view.proposals, view.candidates, recent);
            Concise(given) == reasons && Decide(settings, d, view, recent) == Some(Contain(d, given))
  {
    EligibleMeans(settings, view);
    NoneLeft(settings, d, view, recent);
    hide Resumable, Decide, Eligible, Reasons, Concise, Contain, RefusalReasons;
    assert RefusalReasons(view, recent, reasons);
    OneRefusal(view, recent, reasons);
  }

  /** With everything judged, what is decided depends on what is eligible and what there is. */
  lemma {:induction false} NoneLeft(settings: Settings, d: Delivery, view: View, recent: set<string>)
    requires Resumable(settings, view) && AllJudged(settings, view)
    ensures EachOnce(view)
    ensures var eligible := Eligible(view.proposals, view.candidates);
            var step := Decide(settings, d, view, recent);
            if eligible == [] then
              step == Some(Contain(d, Reasons(view.proposals, view.candidates, recent)))
            else if view.selected.None? || view.patch.None? then
              step == Some(SelectPatch(settings, d, view, eligible))
            else if view.writeback.None? then
              step == Some(WriteEvidence(d, view.selected.value, view.patch.value))
            else if !Ready(settings, view.writeback.value) then
              step == Some(NotReady(view.writeback.value))
            else
              step == Some(CreatePullRequest(d, view.patch.value))
  {
    hide Validate, Contain, SelectPatch, WriteEvidence, NotReady, CreatePullRequest, Reasons, Eligible, Pending,
      CandidatesOk;
    NonePending(view);
    AdvanceSteps.ValidatesInOrder(settings, d, view, view.context.value, recent);
  }

  lemma {:induction false} ChoiceDecided(settings: Settings, d: Delivery, view: View, recent: set<string>,
        c: Assessment, i: nat)
    requires Resumable(settings, view) && ChoiceDue(settings, view, c, i)
    ensures var eligible := Eligible(view.proposals, view.candidates);
            && eligible != [] && c == Best(eligible) && i < |view.proposals|
            && ProposalOf(view.proposals, c.id) == Some(view.proposals[i])
            && Decide(settings, d, view, recent) == Some(SelectPatch(settings, d, view, eligible))
  {
    EligibleMeans(settings, view);
    NoneLeft(settings, d, view, recent);
    hide Decide, Eligible, Best, ProposalOf, SelectPatch, NoLater, Shape;
    assert c in Eligible(view.proposals, view.candidates);
    var k := ChoiceIsFirst(settings, view);
    OneChoice(view, c, i, Best(Eligible(view.proposals, view.candidates)), k);
  }

  /** A case with its patch in hand has a candidate that passed. */
  lemma {:induction false} ShipDecided(settings: Settings, d: Delivery, view: View, recent: set<string>)
    requires Resumable(settings, view) && PatchInHand(settings, view)
    ensures var step := Decide(settings, d, view, recent);
            if view.writeback.None? then step == Some(WriteEvidence(d, view.selected.value, view.patch.value))
            else if !Ready(settings, view.writeback.value) then step == Some(NotReady(view.writeback.value))
            else step == Some(CreatePullRequest(d, view.patch.value))
  {
    hide Decide, Eligible, CandidatesOk, WriteEvidence, NotReady, CreatePullRequest, SelectPatch, Contain, Reasons,
      NonePassed, Distinct, EachAssessed;
    SelectedIsEligible(settings, view);
    NoneLeft(settings, d, view, recent);
  }

  lemma {:induction false} EarlyDecided(settings: Settings, d: Delivery, view: View, recent: set<string>)
    requires Resumable(settings, view)
    ensures view.incident.None? ==> Decide(settings, d, view, recent) == Some(RaiseIncident(d))
    ensures view.incident.Some? && !IncidentInHand(settings, view) ==>
            Decide(settings, d, view, recent) == Some(NotReady(view.incident.value))
    ensures IncidentInHand(settings, view) && view.context.None? ==>
            Decide(settings, d, view, recent) == Some(GatherContext(settings, d))
    ensures ContextInHand(settings, view) && (view.generation.None? || view.proposals == []) ==>
            Decide(settings, d, view, recent) == Some(Generate(settings, d, view.context.value))
    ensures ContextInHand(settings, view) && view.generation.Some? && Usable(settings, view.generation.value)
            && view.proposals != [] && !DistinctIds(view.proposals) ==>
            Decide(settings, d, view, recent) == Some(CRASH)
    ensures ProposalsInHand(settings, view) ==>
            Decide(settings, d, view, recent) == Validate(settings, d, view, view.context.value, recent)
  {
    hide RaiseIncident, NotReady, GatherContext, Generate, Validate, Contain, Shape, CandidatesOk;
  }

  /** A step that is explained is the one decided on. */
  lemma {:induction false} ExplainedIsDecided(settings: Settings, d: Delivery, view: View, recent: set<string>,
        event: Event)
    requires Resumable(settings, view) && Explained(settings, d, view, recent, event)
    ensures Decide(settings, d, view, recent) == Some(event)
  {
    hide Resumable, Decide, Explained;
    match event.body
    case IncidentRaised(_) => InputDecided(settings, d, view, recent, event);
    case ContextGathered(_) => InputDecided(settings, d, view, recent, event);
    case CandidatesReady(_, _) => InputDecided(settings, d, view, recent, event);
    case ValidationStarted(_) => InputDecided(settings, d, view, recent, event);
    case CandidateAssessed(_) => AssessmentDecided(settings, d, view, recent, event);
    case PatchReady(_, _) => PatchDecided(settings, d, view, recent, event);
    case CaseContained(_, _) => EndDecided(settings, d, view, recent, event);
    case CaseFailed(_) => EndDecided(settings, d, view, recent, event);
    case _ => ShipmentDecided(settings, d, view, recent, event);
  }

  lemma {:induction false} InputDecided(settings: Settings, d: Delivery, view: View, recent: set<string>,
        event: Event)
    requires event.body.IncidentRaised? || event.body.ContextGathered? || event.body.CandidatesReady?
             || event.body.ValidationStarted?
    requires Resumable(settings, view) && Explained(settings, d, view, recent, event)
    ensures Decide(settings, d, view, recent) == Some(event)
  {
    hide Resumable, Decide, Validate;
    EarlyDecided(settings, d, view, recent);
    if event.body.ValidationStarted? {
      AdvanceSteps.ValidatesInOrder(settings, d, view, view.context.value, recent);
    }
  }

  lemma {:induction false} ShipmentDecided(settings: Settings, d: Delivery, view: View, recent: set<string>,
        event: Event)
    requires event.body.EvidenceWritten? || event.body.PrAttempted? || event.body.PrOpened?
             || event.body.SystemReset? || event.body.SchemaChangeDetected? || event.body.DeploymentRecorded?
             || event.body.PostDeployVerified? || event.body.IncidentResolved?
    requires Resumable(settings, view) && Explained(settings, d, view, recent, event)
    ensures Decide(settings, d, view, recent) == Some(event)
  {
    hide Resumable, Decide, AllJudged;
    ShipDecided(settings, d, view, recent);
  }

  lemma {:induction false} EndDecided(settings: Settings, d: Delivery, view: View, recent: set<string>, event: Event)
    requires event.body.CaseContained? || event.body.CaseFailed?
    requires Resumable(settings, view) && Explained(settings, d, view, recent, event)
    ensures Decide(settings, d, view, recent) == Some(event)
  {
    hide Resumable, Decide, RefusalDue, FailureDue, Raises, Concise;
    match event.body
    case CaseContained(reasons, _) =>
      var given := RefusalDecided(settings, d, view, recent, reasons);
    case CaseFailed(cause) =>
      if cause.Some? {
        FailureDecided(settings, d, view, recent, cause.value);
      } else {
        RaiseDecided(settings, d, view, recent);
      }
  }

  lemma {:induction false} AssessmentDecided(settings: Settings, d: Delivery, view: View, recent: set<string>,
        event: Event)
    requires Resumable(settings, view) && event.body.CandidateAssessed?
    requires Explained(settings, d, view, recent, event)
    ensures Decide(settings, d, view, recent) == Some(event)
  {
    EarlyDecided(settings, d, view, recent);
    AdvanceSteps.ValidatesInOrder(settings, d, view, view.context.value, recent);
    hide Decide, Validate, Resumable, ProposalsInHand, Pending, Assess;
    var a := event.body.assessment;
    var i: nat :| FirstUnassessed(view, i) && AssessmentOf(settings, d, view.proposals[i], view.context.value, a);
    forall j | 0 <= j < |view.proposals|
      ensures view.proposals[j].id in Ids(view.candidates) <==>
              Assessed(view.candidates, view.proposals[j].id).Some?
    {
      AssessedInIds(view.candidates, view.proposals[j].id);
    }
    AdvanceSteps.PendingFirst(view.proposals, view.candidates, i);
    AssessMeans(settings, d, view.proposals[i], view.context.value);
    OneAssessment(settings, d, view.proposals[i], view.context.value, a,
      Assess(settings, d, view.proposals[i], view.context.value));
  }

  lemma {:induction false} OneAssessment(settings: Settings, d: Delivery, p: Proposal, context: Context,
        a: Assessment, b: Assessment)
    requires AssessmentOf(settings, d, p, context, a) && AssessmentOf(settings, d, p, context, b)
    ensures a == b
  {
    hide Policy.Checks;
  }

  lemma {:induction false} PatchDecided(settings: Settings, d: Delivery, view: View, recent: set<string>, event: Event)
    requires Resumable(settings, view) && event.body.PatchReady? && Explained(settings, d, view, recent, event)
    ensures Decide(settings, d, view, recent) == Some(event)
  {
    hide Decide, Resumable, FirstChoice, AllJudged, SqlSafety.Patchable, SqlSafety.PatchedFrom,
      SqlSafety.RenderDbtPatch, Best, Eligible, ProposalOf;
    var selected, patch := event.body.selected, event.body.patch;
    var c, i: nat :|
      && ChoiceDue(settings, view, c, i) && selected == c.(outcome := SELECTED)
      && CanPatch(d, view.proposals[i])
      && selected.sourceField == view.proposals[i].sourceField
      && SqlSafety.PatchedFrom(selected.sourceField, d.adapters.readModel.value, patch.content)
      && patch.sha256 == settings.sha256(patch.content);
    ChoiceDecided(settings, d, view, recent, c, i);
    var p, model := view.proposals[i], d.adapters.readModel.value;
    SqlSafety.PatchSucceedsExactlyWhen(p, model);
    SqlSafety.RenderedIsPatched(p, model);
    OnePatch(p.sourceField, model, patch.content, SqlSafety.RenderDbtPatch(p, model).value);
  }

  lemma {:induction false} FailureDecided(settings: Settings, d: Delivery, view: View, recent: set<string>,
        cause: Integration)
    requires Resumable(settings, view) && FailureDue(settings, d, view, cause)
    ensures Decide(settings, d, view, recent) == Some(NotReady(cause))
  {
    hide Decide, Resumable, AllJudged;
    EarlyDecided(settings, d, view, recent);
    if PatchInHand(settings, view) {
      ShipDecided(settings, d, view, recent);
    }
  }

  lemma {:induction false} RaiseDecided(settings: Settings, d: Delivery, view: View, recent: set<string>)
    requires Resumable(settings, view) && Raises(settings, d, view, recent)
    ensures Decide(settings, d, view, recent) == Some(CRASH)
  {
    hide Decide, Resumable, AllJudged, RefusalDue, CanPatch, FirstChoice, Validate;
    EarlyDecided(settings, d, view, recent);
    if reasons :| RefusalDue(settings, d, view, recent, reasons) && Reports(d, Refused(reasons), Raise) {
      var given := RefusalDecided(settings, d, view, recent, reasons);
    } else if c, i: nat :| ChoiceDue(settings, view, c, i) && !CanPatch(d, view.proposals[i]) {
      UnpatchableDecided(settings, d, view, recent, c, i);
    } else if PatchInHand(settings, view) {
      ShipDecided(settings, d, view, recent);
    }
  }

  lemma {:induction false} UnpatchableDecided(settings: Settings, d: Delivery, view: View, recent: set<string>,
        c: Assessment, i: nat)
    requires Resumable(settings, view) && ChoiceDue(settings, view, c, i) && !CanPatch(d, view.proposals[i])
    ensures Decide(settings, d, view, recent) == Some(CRASH)
  {
    hide Decide, Resumable, ChoiceDue, SqlSafety.Patchable, SqlSafety.RenderDbtPatch, Best, Eligible, ProposalOf;
    ChoiceDecided(settings, d, view, recent, c, i);
    if d.adapters.readModel.Reply? {
      SqlSafety.PatchSucceedsExactlyWhen(view.proposals[i], d.adapters.readModel.value);
    }
  }

  /** In a case that can go on, the workflow decides on a step exactly when it is explained; so the
      explanations leave no choice. */
  lemma {:induction false} DecidedExactly(settings: Settings, d: Delivery, view: View, recent: set<string>,
        event: Event)
    requires Resumable(settings, view)
    ensures Decide(settings, d, view, recent) == Some(event) <==> Explained(settings, d, view, recent, event)
  {
    hide Resumable, Decide, Explained;
    DecideDue(settings, d, view, recent);
    if Explained(settings, d, view, recent, event) {
      ExplainedIsDecided(settings, d, view, recent, event);
    }
  }

  // ---- Whole advances ----

  /** What an uninterrupted advance made of a stream: each event it added is the one that was due
      where it stands, and it went on until the case left the resumable states or a draft could not
      be opened. */
  ghost predicate Advanced(settings: Settings, d: Delivery, before: seq<Event>, after: seq<Event>) {
    && Started(before) && before <= after
    && (forall n :: |before| <= n < |after| ==> StepExplained(settings, d, before, after, n))
    && (forall n :: |before| <= n < |after| - 1 ==> !after[n].body.PrAttempted?)
    && (|| Fold(after).state !in {DETECTED, CONTEXT_GATHERED, CANDIDATES_READY, VALIDATING, PATCH_READY}
        || (|after| > |before| && after[|after| - 1].body.PrAttempted?))
  }

  /** Event n was due in a resumable case; the call has assessed what it recorded so far. */
  ghost predicate StepExplained(settings: Settings, d: Delivery, before: seq<Event>, after: seq<Event>, n: nat)
    requires Started(before) && before <= after && |before| <= n < |after|
  {
    assert after[..n][0] == before[0];
    var view := Fold(after[..n]);
    && view.state in {DETECTED, CONTEXT_GATHERED, CANDIDATES_READY, VALIDATING, PATCH_READY}
    && Explained(settings, d, view, AssessedSince(after, |before|, n), after[n])
  }

  /** A run ends where no step is left, or right after a failed attempt. */
  lemma {:induction false} RunEnds(settings: Settings, d: Delivery, events: seq<Event>, recent: set<string>)
    returns (last: set<string>)
    requires Started(events)
    ensures var run := Run(settings, d, events, recent);
            || Next(settings, d, run, last).None?
            || (|run| > |events| && run[|run| - 1].body.PrAttempted?)
    decreases StagesLeft(Fold(events)), |Pending(Fold(events).proposals, Fold(events).candidates)|
  {
    hide Decide, Apply, Checked, Fold, StagesLeft, Pending;
    last := recent;
    match Next(settings, d, events, recent)
    case None =>
    case Some(event) =>
      FoldStep(events, event);
      if !event.body.PrAttempted? {
        NextMakesProgress(settings, d, events, recent);
        last := RunEnds(settings, d, events + [event], RecentAfter(recent, event));
      }
  }

  lemma {:induction false} NextDue(settings: Settings, d: Delivery, events: seq<Event>, recent: set<string>)
    requires Invariant(settings, events)
    ensures var view := Fold(events);
            var next := Next(settings, d, events, recent);
            if view.state in {DETECTED, CONTEXT_GATHERED, CANDIDATES_READY, VALIDATING, PATCH_READY}
            then next.Some? && Explained(settings, d, view, recent, next.value)
            else next.None?
  {
    hide Fold, Decide, Explained, Shape, CandidatesOk, Counts, Ending, Distinct;
    var view := Fold(events);
    if view.state in RESUMABLE {
      DecideDue(settings, d, view, recent);
    }
  }

  lemma {:induction false} RunAdvanced(settings: Settings, d: Delivery, events: seq<Event>)
    requires Invariant(settings, events)
    ensures Advanced(settings, d, events, Run(settings, d, events, {}))
  {
    hide Run, Invariant, Next, Explained, Fold;
    StartedInvariant(settings, events);
    var run := Run(settings, d, events, {});
    forall n | |events| <= n < |run|
      ensures StepExplained(settings, d, events, run, n)
      ensures n < |run| - 1 ==> !run[n].body.PrAttempted?
    {
      var middle := RunPrefix(settings, d, events, {}, n);
      RunKeepsInvariant(settings, d, events, n);
      NextDue(settings, d, run[..n], middle);
      assert {} + AssessedSince(run, |events|, n) == AssessedSince(run, |events|, n);
      if n < |run| - 1 {
        var after := RunPrefix(settings, d, events, {}, n + 1);
      }
    }
    var last := RunEnds(settings, d, events, {});
    RunKeepsInvariant(settings, d, events, |run|);
    assert run[..|run|] == run;
    NextDue(settings, d, run, last);
  }

  lemma {:induction false} SameSince(a: seq<Event>, b: seq<Event>, from: nat, n: nat)
    requires n <= |a| && n <= |b| && a[..n] == b[..n]
    ensures AssessedSince(a, from, n) == AssessedSince(b, from, n)
  {
    assert forall i :: 0 <= i < n ==> a[i] == a[..n][i] == b[..n][i] == b[i];
  }

  lemma {:induction false} InvariantIsResumable(settings: Settings, events: seq<Event>)
    requires Invariant(settings, events)
    ensures Started(events)
    ensures Fold(events).state in {DETECTED, CONTEXT_GATHERED, CANDIDATES_READY, VALIDATING, PATCH_READY} ==>
            Resumable(settings, Fold(events))
  {
    hide Fold, Shape, CandidatesOk, Counts, Ending, Distinct;
  }

  /** What is explained in a good stream is its next event, and keeps it good. */
  lemma {:induction false} ExplainedIsNext(settings: Settings, d: Delivery, events: seq<Event>, recent: set<string>,
        event: Event)
    requires Invariant(settings, events)
    requires Fold(events).state in {DETECTED, CONTEXT_GATHERED, CANDIDATES_READY, VALIDATING, PATCH_READY}
    requires Explained(settings, d, Fold(events), recent, event)
    ensures Next(settings, d, events, recent) == Some(event) && Invariant(settings, events + [event])
  {
    hide Invariant, Fold, Decide, Explained, Resumable;
    InvariantIsResumable(settings, events);
    DecidedExactly(settings, d, Fold(events), recent, event);
    DecideDue(settings, d, Fold(events), recent);
    StepKeepsInvariant(settings, d, events, recent);
  }

  /** Two advances from the same stream agree as far as both go. */
  lemma {:induction false} SameUpTo(settings: Settings, d: Delivery, before: seq<Event>, a: seq<Event>,
        b: seq<Event>, n: nat)
    requires Invariant(settings, before) && Advanced(settings, d, before, a) && Advanced(settings, d, before, b)
    requires |before| <= n <= |a| && n <= |b|
    ensures a[..n] == b[..n] && Invariant(settings, a[..n])
  {
    hide Invariant, Fold, Explained, Next;
    if n == |before| {
      assert a[..n] == before && b[..n] == before;
    } else {
      SameUpTo(settings, d, before, a, b, n - 1);
      SameSince(a, b, |before|, n - 1);
      var recent := AssessedSince(a, |before|, n - 1);
      assert StepExplained(settings, d, before, a, n - 1) && StepExplained(settings, d, before, b, n - 1);
      ExplainedIsNext(settings, d, a[..n - 1], recent, a[n - 1]);
      ExplainedIsNext(settings, d, a[..n - 1], recent, b[n - 1]);
      assert a[..n] == a[..n - 1] + [a[n - 1]] && b[..n] == b[..n - 1] + [b[n - 1]];
    }
  }

  /** While events are left, the case could go on and no draft had failed to open. */
  lemma {:induction false} GoesOn(settings: Settings, d: Delivery, before: seq<Event>, after: seq<Event>, n: nat)
    requires Advanced(settings, d, before, after) && |before| <= n < |after|
    ensures Started(after[..n])
    ensures Fold(after[..n]).state in {DETECTED, CONTEXT_GATHERED, CANDIDATES_READY, VALIDATING, PATCH_READY}
    ensures n > |before| ==> !after[n - 1].body.PrAttempted?
  {
    hide Fold, Explained;
    assert StepExplained(settings, d, before, after, n);
    assert after[..n][0] == before[0];
  }

  lemma {:induction false} NoShorter(settings: Settings, d: Delivery, before: seq<Event>, a: seq<Event>, b: seq<Event>)
    requires Invariant(settings, before) && Advanced(settings, d, before, a) && Advanced(settings, d, before, b)
    ensures |a| >= |b|
  {
    hide Invariant, Fold, Explained, StepExplained;
    if |a| < |b| {
      SameUpTo(settings, d, before, a, b, |a|);
      assert a[..|a|] == a;
      assert |a| > 0 ==> a[|a| - 1] == b[..|a|][|a| - 1];
      GoesOn(settings, d, before, b, |a|);
    }
  }

  /** From a good stream there is one way to advance, and it is the run. */
  lemma {:induction false} OneAdvance(settings: Settings, d: Delivery, before: seq<Event>, after: seq<Event>)
    requires Invariant(settings, before)
    ensures Started(before)
    ensures Advanced(settings, d, before, after) <==> after == Run(settings, d, before, {})
  {
    hide Invariant, Advanced, Run;
    StartedInvariant(settings, before);
    RunAdvanced(settings, d, before);
    if Advanced(settings, d, before, after) {
      var run := Run(settings, d, before, {});
      NoShorter(settings, d, before, after, run);
      NoShorter(settings, d, before, run, after);
      AdvancedExtends(settings, d, before, run);
      SameUpTo(settings, d, before, after, run, |run|);
      assert after[..|run|] == after && run[..|run|] == run;
    }
  }

  lemma {:induction false} AdvancedExtends(settings: Settings, d: Delivery, before: seq<Event>, after: seq<Event>)
    requires Advanced(settings, d, before, after)
    ensures |before| <= |after|
  {
  }
}
