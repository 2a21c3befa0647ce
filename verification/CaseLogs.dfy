/** Whole logs: any number of cases, detected, advanced and verified by interleaved calls that
    may be killed between any two appends, and reset in between.

    One step here is one append, decided on the case's own stream as it is at that moment; the
    module SharedCase is about processes that drive one case on what they read earlier.
 */
module CaseLogs {
  import opened Model
  import opened StateMachine
  import opened Log
  import opened Projection
  import opened Store
  import opened Recovery
  import opened CaseIdentity
  import opened CaseHistory
  import AdvanceSteps
  import Deployment
  import IngestRace
  import Policy

  // ---- Steps ----

  /** The appends there are. A call on a case appends the next event of its own kind: an advance
      that remembers which proposals it assessed itself, or a verification that has already
      recorded its first `done` events. */
  datatype CaseStep =
    | Detects(change: SchemaChange, key: string, caseId: string)
    | Advances(d: Delivery, recent: set<string>)
    | Verifies(caseId: string, w: Deployment.Adapters, request: Deployment.Request, done: nat)

  function CaseOf(step: CaseStep): string {
    match step
    case Detects(_, _, caseId) => caseId
    case Advances(d, _) => d.caseId
    case Verifies(caseId, _, _, _) => caseId
  }

  datatype LogStep = Appends(step: CaseStep, now: int) | Resets(reason: string, now: int)

  function RecordOf(caseId: string, event: Event): Request
    requires event.state.Some?
  {
    Request(caseId, event.body, event.state.value, None, None)
  }

  /** The events one verification adds to these. */
  function Closing(settings: Settings, step: CaseStep, events: seq<Event>): seq<Event>
    requires step.Verifies? && Started(events)
  {
    Deployment.Verify(settings, step.caseId, step.w, Fold(events), step.request).events
  }

  /** What a step asks the store to append, if its call has anything left to record. */
  function RequestOf(settings: Settings, rows: seq<Row>, step: CaseStep): Option<Request> {
    match step {
      case Detects(change, key, caseId) =>
        if Digest(key) && OwnId(caseId, key) then Some(DetectionOf(change, key, caseId)) else None
      case Advances(d, recent) =>
        var events := CaseStream(rows, d.caseId);
        if !Started(events) then None
        else
          var next := Next(settings, d, events, recent);
          if next.None? then None else Some(RecordOf(d.caseId, next.value))
      case Verifies(caseId, w, request, done) =>
        var events := CaseStream(rows, caseId);
        if done >= |events| || !Started(events) then None
        else
          var closing := Closing(settings, step, events[..|events| - done]);
          if done < |closing| && events[|events| - done..] == closing[..done] && closing[done].state.Some?
          then Some(RecordOf(caseId, closing[done]))
          else None
    }
  }

  function AfterCaseStep(settings: Settings, rows: seq<Row>, step: CaseStep, now: int): seq<Row> {
    match RequestOf(settings, rows, step)
    case None => rows
    case Some(req) => AfterAppend(rows, req, now)
  }

  /** The log that these steps leave. */
  function Reached(settings: Settings, steps: seq<LogStep>): seq<Row> {
    if steps == [] then []
    else
      var rows := Reached(settings, steps[..|steps| - 1]);
      match steps[|steps| - 1]
      case Appends(step, now) => AfterCaseStep(settings, rows, step, now)
      case Resets(reason, now) => AfterReset(rows, reason, now)
  }

  /** Wherever an advance stands in its run, its next append is one of these steps. */
  lemma {:induction false} AdvanceTakesSteps(settings: Settings, d: Delivery, start: seq<Event>, rows: seq<Row>,
        n: nat) returns (recent: set<string>)
    requires Started(start) && |start| <= n < |Run(settings, d, start, {})|
    requires CaseStream(rows, d.caseId) == Run(settings, d, start, {})[..n]
    ensures var event := Run(settings, d, start, {})[n];
            && event.state.Some?
            && RequestOf(settings, rows, Advances(d, recent)) == Some(RecordOf(d.caseId, event))
  {
    hide Run, Next, CaseStream;
    recent := RunPrefix(settings, d, start, {}, n);
  }

  /** So is the next append of a verification that has recorded its first k events. */
  lemma {:induction false} VerificationTakesSteps(settings: Settings, caseId: string, w: Deployment.Adapters,
        request: Deployment.Request, start: seq<Event>, rows: seq<Row>, k: nat)
    requires Started(start)
    requires var closing := Deployment.Verify(settings, caseId, w, Fold(start), request).events;
             k < |closing| && CaseStream(rows, caseId) == start + closing[..k]
    ensures var event := Deployment.Verify(settings, caseId, w, Fold(start), request).events[k];
            && event.state.Some?
            && RequestOf(settings, rows, Verifies(caseId, w, request, k)) == Some(RecordOf(caseId, event))
  {
    hide Deployment.Verify, Fold, CaseStream;
    ClosingStep(settings, caseId, w, request, start, k);
    var events := CaseStream(rows, caseId);
    assert events[..|events| - k] == start;
    assert events[0] == start[0];
  }

  // ---- What every log keeps ----

  /** Every case of the current scope keeps the invariant of a single case. */
  ghost predicate CasesOk(settings: Settings, rows: seq<Row>) {
    forall id :: CaseStream(rows, id) != [] ==> Invariant(settings, CaseStream(rows, id))
  }

  /** The same, of all cases but one. */
  ghost predicate OthersOk(settings: Settings, rows: seq<Row>, caseId: string) {
    forall id :: id != caseId && CaseStream(rows, id) != [] ==> Invariant(settings, CaseStream(rows, id))
  }

  lemma {:induction false} CaseIsOk(settings: Settings, rows: seq<Row>, caseId: string)
    requires CasesOk(settings, rows) && CaseStream(rows, caseId) != []
    ensures Invariant(settings, CaseStream(rows, caseId))
  {
  }

  lemma {:induction false} OthersAreOk(settings: Settings, rows: seq<Row>, caseId: string)
    ensures CasesOk(settings, rows) ==> OthersOk(settings, rows, caseId)
    ensures OthersOk(settings, rows, caseId) && Invariant(settings, CaseStream(rows, caseId)) ==>
        CasesOk(settings, rows)
  {
    hide Invariant, CaseStream;
  }

  /** A case detected anew had no events before. */
  lemma {:induction false} DetectedAnew(rows: seq<Row>, change: SchemaChange, key: string, caseId: string, now: int)
    requires LegalLog(rows) && AppendOutcome(rows, DetectionOf(change, key, caseId), now).Appended?
    ensures CaseStream(rows, caseId) == []
  {
    IngestRace.StateMeansExists(rows, caseId);
    AdvanceSteps.StreamExists(rows, caseId);
  }

  /** An append of a good next event leaves its own case good, and every other as it was. */
  lemma {:induction false} AppendKeepsCase(settings: Settings, rows: seq<Row>, req: Request, now: int, id: string)
    requires ValidLog(rows) && !req.body.SystemReset?
    requires AppendOutcome(rows, req, now).Appended? ==>
             Invariant(settings, CaseStream(rows, req.caseId) + [Event(req.body, Some(req.state))])
    requires CaseStream(rows, id) != [] ==> Invariant(settings, CaseStream(rows, id))
    ensures var after := AfterAppend(rows, req, now);
            && (CaseStream(after, id) != [] ==> Invariant(settings, CaseStream(after, id)))
            && (id != req.caseId ==> CaseStream(after, id) == CaseStream(rows, id))
  {
    hide Invariant, CaseStream, ValidLog, CurrentScope;
    if AppendOutcome(rows, req, now).Appended? {
      AppendExtendsStream(rows, req, now, id);
      assert CaseStream(rows, id) + [] == CaseStream(rows, id);
    }
  }

  /** What a step asks for is what an ingest, an advance or a verification may ask for. */
  lemma {:induction false} StepIsLegal(settings: Settings, rows: seq<Row>, step: CaseStep)
    requires RequestOf(settings, rows, step).Some?
    ensures LegalRequest(rows, RequestOf(settings, rows, step).value)
  {
    hide Decide, Fold, Invariant, Digest, OwnId, Deployment.Verify, ValidLog, CaseStream, CaseIdExists;
    match step
    case Detects(_, _, _) =>
    case Advances(d, recent) =>
      AdvanceSteps.StreamExists(rows, d.caseId);
      DecideShape(settings, d, Fold(CaseStream(rows, d.caseId)), recent);
    case Verifies(caseId, w, request, done) =>
      AdvanceSteps.StreamExists(rows, caseId);
      var events := CaseStream(rows, caseId);
      ClosingStep(settings, caseId, w, request, events[..|events| - done], done);
  }

  /** The event a call appends next keeps its case's invariant. */
  lemma {:induction false} NextIsGood(settings: Settings, rows: seq<Row>, step: CaseStep, now: int)
    requires LegalLog(rows) && RequestOf(settings, rows, step).Some?
    requires CaseStream(rows, CaseOf(step)) != [] ==> Invariant(settings, CaseStream(rows, CaseOf(step)))
    ensures var req := RequestOf(settings, rows, step).value;
            AppendOutcome(rows, req, now).Appended? ==>
            Invariant(settings, CaseStream(rows, req.caseId) + [Event(req.body, Some(req.state))])
  {
    hide LegalLog, Decide, Next, Fold, Invariant, Deployment.Verify, CaseStream, AppendOutcome;
    match step
    case Detects(change, key, caseId) =>
      if AppendOutcome(rows, DetectionOf(change, key, caseId), now).Appended? {
        DetectedAnew(rows, change, key, caseId, now);
        var first := Event(SchemaChangeDetected(change, IncidentUrn(caseId)), Some(DETECTED));
        DetectionInvariant(settings, first);
        assert CaseStream(rows, caseId) + [first] == [first];
      }
    case Advances(d, recent) =>
      StepKeepsInvariant(settings, d, CaseStream(rows, d.caseId), recent);
    case Verifies(caseId, w, request, done) =>
      var events := CaseStream(rows, caseId);
      var start := events[..|events| - done];
      assert events == start + Closing(settings, step, start)[..done];
      ClosingStep(settings, caseId, w, request, start, done);
      ClosingKeepsInvariant(settings, events, Closing(settings, step, start)[done]);
  }

  /** Every step keeps the log legal and every case in it good; and it leaves other cases alone. */
  lemma {:induction false} StepKeepsCases(settings: Settings, rows: seq<Row>, step: CaseStep, now: int)
    requires LegalLog(rows)
    ensures LegalLog(AfterCaseStep(settings, rows, step, now))
    ensures CasesOk(settings, rows) ==> CasesOk(settings, AfterCaseStep(settings, rows, step, now))
    ensures forall id :: id != CaseOf(step) ==>
      && CaseStream(AfterCaseStep(settings, rows, step, now), id) == CaseStream(rows, id)
      && (OthersOk(settings, rows, id) ==> OthersOk(settings, AfterCaseStep(settings, rows, step, now), id))
  {
    hide LegalLog, LegalRequest, Invariant, CaseStream, RequestOf, AppendOutcome, AfterAppend;
    LegalIsValid(rows);
    if RequestOf(settings, rows, step).Some? {
      var req := RequestOf(settings, rows, step).value;
      StepIsLegal(settings, rows, step);
      LegalAppend(rows, req, now);
      IngestRace.StageIsNoReset(rows, req);
      RequestsOwnCase(settings, rows, step);
      forall id ensures id != CaseOf(step) ==> CaseStream(AfterAppend(rows, req, now), id) == CaseStream(rows, id) {
        AppendsElsewhere(rows, req, now, id);
      }
      if CaseStream(rows, CaseOf(step)) != [] ==> Invariant(settings, CaseStream(rows, CaseOf(step))) {
        NextIsGood(settings, rows, step, now);
        AppendKeepsCase(settings, rows, req, now, CaseOf(step));
      }
    }
  }

  lemma {:induction false} RequestsOwnCase(settings: Settings, rows: seq<Row>, step: CaseStep)
    requires RequestOf(settings, rows, step).Some?
    ensures RequestOf(settings, rows, step).value.caseId == CaseOf(step)
  {
    hide Next, Deployment.Verify, Fold;
  }

  lemma {:induction false} AppendsElsewhere(rows: seq<Row>, req: Request, now: int, id: string)
    requires ValidLog(rows) && !req.body.SystemReset?
    ensures id != req.caseId ==> CaseStream(AfterAppend(rows, req, now), id) == CaseStream(rows, id)
  {
    hide CaseStream, ValidLog, CurrentScope;
    if AppendOutcome(rows, req, now).Appended? {
      AppendExtendsStream(rows, req, now, id);
    }
  }

  lemma {:induction false} ResetKeepsCases(settings: Settings, rows: seq<Row>, reason: string, now: int)
    requires ValidLog(rows)
    ensures CasesOk(settings, AfterReset(rows, reason, now))
  {
    hide ValidLog, CaseStream, AfterReset, Invariant;
    forall id ensures CaseStream(AfterReset(rows, reason, now), id) == [] {
      ResetEmptiesStreams(rows, reason, now, id);
    }
  }

  /** Whole calls, as the driver makes them, keep every case good too. */
  lemma {:induction false} AdvanceKeepsCases(settings: Settings, d: Delivery, rows: seq<Row>, after: seq<Row>)
    requires OthersOk(settings, rows, d.caseId) ==> OthersOk(settings, after, d.caseId)
    requires Started(CaseStream(rows, d.caseId))
    requires CaseStream(after, d.caseId) == Run(settings, d, CaseStream(rows, d.caseId), {})
    ensures CasesOk(settings, rows) ==> CasesOk(settings, after)
  {
    hide Run, Invariant, CaseStream, CasesOk, OthersOk;
    OthersAreOk(settings, rows, d.caseId);
    OthersAreOk(settings, after, d.caseId);
    if CasesOk(settings, rows) {
      var run := Run(settings, d, CaseStream(rows, d.caseId), {});
      CaseIsOk(settings, rows, d.caseId);
      RunKeepsInvariant(settings, d, CaseStream(rows, d.caseId), |run|);
      assert run[..|run|] == run;
    }
  }

  lemma {:induction false} VerificationKeepsCases(settings: Settings, caseId: string, w: Deployment.Adapters,
        request: Deployment.Request, rows: seq<Row>, after: seq<Row>)
    requires AdvanceSteps.Grew(rows, after, caseId) && Started(CaseStream(rows, caseId))
    requires CaseStream(after, caseId) == CaseStream(rows, caseId)
             + Deployment.Verify(settings, caseId, w, Fold(CaseStream(rows, caseId)), request).events
    ensures CasesOk(settings, rows) ==> CasesOk(settings, after)
  {
    GrewKeepsOthers(settings, rows, after, caseId);
    hide Deployment.Verify, Fold, Invariant, CaseStream, ValidLog, CasesOk, OthersOk, CurrentScope;
    OthersAreOk(settings, rows, caseId);
    OthersAreOk(settings, after, caseId);
    if CasesOk(settings, rows) {
      var closing := Deployment.Verify(settings, caseId, w, Fold(CaseStream(rows, caseId)), request).events;
      CaseIsOk(settings, rows, caseId);
      VerificationKeepsInvariant(settings, caseId, w, request, CaseStream(rows, caseId), |closing|);
      assert closing[..|closing|] == closing;
    }
  }

  /** A call that only appends to its own case leaves all others good. */
  lemma {:induction false} GrewKeepsOthers(settings: Settings, rows: seq<Row>, after: seq<Row>, caseId: string)
    requires AdvanceSteps.Grew(rows, after, caseId)
    ensures OthersOk(settings, rows, caseId) ==> OthersOk(settings, after, caseId)
  {
    hide Invariant, CaseStream, ValidLog, CurrentScope;
  }

  /** Every log that any interleaving of steps reaches is legal, and all its cases are good. */
  lemma {:induction false} ReachedIsGood(settings: Settings, steps: seq<LogStep>)
    ensures LegalLog(Reached(settings, steps)) && CasesOk(settings, Reached(settings, steps))
  {
    if steps == [] {
      assert forall id :: CaseStream([], id) == [];
    } else {
      hide LegalLog, CasesOk, AfterCaseStep, AfterReset;
      var rows := Reached(settings, steps[..|steps| - 1]);
      ReachedIsGood(settings, steps[..|steps| - 1]);
      match steps[|steps| - 1]
      case Appends(step, now) =>
        StepKeepsCases(settings, rows, step, now);
      case Resets(reason, now) =>
        LegalIsValid(rows);
        LegalReset(rows, reason, now);
        ResetKeepsCases(settings, rows, reason, now);
    }
  }

  // ---- What every log promises ----

  /** Of every case in a log of good cases: its stages are recorded once; the evidence comes
      before the draft and before the resolution; its selection is the best of its candidates. */
  lemma {:induction false} CasesKeepPromises(settings: Settings, rows: seq<Row>, caseId: string)
    requires CasesOk(settings, rows) && ActiveCase(rows, caseId)
    ensures Promises(settings, CaseStream(rows, caseId))
  {
    hide Invariant, Promises, CaseStream, CasesOk;
    AdvanceSteps.StreamExists(rows, caseId);
    CaseIsOk(settings, rows, caseId);
    InvariantPromises(settings, CaseStream(rows, caseId));
  }

  /** So it is for every case in every log that any interleaving of steps reaches. */
  lemma {:induction false} ReachedKeepsPromises(settings: Settings, steps: seq<LogStep>, caseId: string)
    requires ActiveCase(Reached(settings, steps), caseId)
    ensures Promises(settings, CaseStream(Reached(settings, steps), caseId))
  {
    hide Promises, CaseStream, LegalLog, CasesOk, Reached;
    ReachedIsGood(settings, steps);
    CasesKeepPromises(settings, Reached(settings, steps), caseId);
  }
}
