/** Killing a run between any two appends and running again from what it left behind. */
module CrashResume {
  import opened Model
  import opened StateMachine
  import opened Projection
  import opened Recovery
  import AdvanceSteps
  import Policy

  // ---- What a resumed run may differ in ----

  /** The same events, or the same up to one last containment attempt whose reasons are
      worded differently. */
  ghost predicate SameUpToContainment(d: Delivery, a: seq<Event>, b: seq<Event>) {
    a == b || exists common: seq<Event>, x, y :: ContainedAfter(d, common, x, a) && ContainedAfter(d, common, y, b)
  }

  ghost predicate ContainedAfter(d: Delivery, common: seq<Event>, reasons: seq<Reason>, events: seq<Event>) {
    events == common + [Contain(d, reasons)]
  }

  /** Events of the same types and states, with equal payloads but for containments. */
  ghost predicate SameRecord(a: seq<Event>, b: seq<Event>) {
    && |a| == |b|
    && forall i :: 0 <= i < |a| ==>
         a[i] == b[i] || (a[i].body.CaseContained? && b[i].body.CaseContained? && a[i].state == b[i].state)
  }

  // ---- Forgetting what the killed run knew ----

  /** All proposals are assessed and none is eligible: the case is about to be contained for it. */
  predicate RefusesCandidates(settings: Settings, view: View) {
    && view.state in RESUMABLE && view.state != CANDIDATES_READY
    && view.incident.Some? && Ready(settings, view.incident.value)
    && view.context.Some? && Complete(view.context.value)
    && view.generation.Some? && view.proposals != [] && Ready(settings, view.generation.value)
    && DistinctIds(view.proposals)
    && Pending(view.proposals, view.candidates) == [] && Eligible(view.proposals, view.candidates) == []
  }

  /** What a run remembers beyond its log only words the reasons of that containment. */
  lemma {:induction false} DecideForgets(settings: Settings, d: Delivery, view: View, r: set<string>, s: set<string>)
    requires view.state in RESUMABLE
    ensures !RefusesCandidates(settings, view) ==> Decide(settings, d, view, r) == Decide(settings, d, view, s)
    ensures RefusesCandidates(settings, view) ==>
            Decide(settings, d, view, r) == Some(Contain(d, Reasons(view.proposals, view.candidates, r)))
  {
    hide Contain, RaiseIncident, GatherContext, Generate, SelectPatch, WriteEvidence, CreatePullRequest, Assess;
  }

  /** The last event of a run over these events contains the case for want of an eligible candidate. */
  ghost predicate EndsRefused(settings: Settings, events: seq<Event>, run: seq<Event>)
    requires Started(events) && events <= run
  {
    |run| > |events| && Started(run[..|run| - 1]) && RefusesCandidates(settings, Fold(run[..|run| - 1]))
  }

  /** The reasons of that containment, as a run words them that remembers these ids. */
  ghost function RefusalReasons(run: seq<Event>, recent: set<string>): seq<Reason> {
    if |run| > 0 && Started(run[..|run| - 1]) then
      var view := Fold(run[..|run| - 1]);
      Reasons(view.proposals, view.candidates, recent)
    else []
  }

  /** One step of two runs at the same log that remember different things. */
  lemma {:induction false} StepForgets(settings: Settings, d: Delivery, events: seq<Event>, r: set<string>,
        s: set<string>)
    requires Started(events)
    ensures var view := Fold(events);
            var next := Next(settings, d, events, r);
            if RefusesCandidates(settings, view) then
              && Run(settings, d, events, r) == events + [Contain(d, Reasons(view.proposals, view.candidates, r))]
              && Run(settings, d, events, s) == events + [Contain(d, Reasons(view.proposals, view.candidates, s))]
            else if next.None? then
              Run(settings, d, events, r) == Run(settings, d, events, s) == events
            else if next.value.body.PrAttempted? then
              Run(settings, d, events, r) == Run(settings, d, events, s) == events + [next.value]
            else
              && Run(settings, d, events, r) == Run(settings, d, events + [next.value], RecentAfter(r, next.value))
              && Run(settings, d, events, s) == Run(settings, d, events + [next.value], RecentAfter(s, next.value))
  {
    var view := Fold(events);
    if view.state in RESUMABLE {
      DecideForgets(settings, d, view, r, s);
      DecideForgets(settings, d, view, s, r);
      hide Decide, RefusesCandidates, Apply, Contain, Fold;
      if RefusesCandidates(settings, view) {
        ContainEnds(settings, d, events, r, Reasons(view.proposals, view.candidates, r));
        ContainEnds(settings, d, events, s, Reasons(view.proposals, view.candidates, s));
      }
    }
  }

  /** Two runs that start at the same log do the same, up to how they word a refusal. */
  ghost predicate SameButWording(settings: Settings, d: Delivery, events: seq<Event>, r: set<string>, s: set<string>)
    requires Started(events)
  {
    var a, b := Run(settings, d, events, r), Run(settings, d, events, s);
    if EndsRefused(settings, events, a) then
      var init := a[..|a| - 1];
      var since := AssessedSince(a, |events|, |a| - 1);
      && a == init + [Contain(d, RefusalReasons(a, r + since))]
      && b == init + [Contain(d, RefusalReasons(a, s + since))]
    else a == b
  }

  lemma {:induction false} RunForgets(settings: Settings, d: Delivery, events: seq<Event>, r: set<string>,
        s: set<string>)
    requires Started(events)
    ensures SameButWording(settings, d, events, r, s)
    decreases StagesLeft(Fold(events)), |Pending(Fold(events).proposals, Fold(events).candidates)|
  {
    hide Run, Decide, Checked, Apply, RefusesCandidates, StagesLeft, Pending, Fold, Contain;
    var view := Fold(events);
    var a := Run(settings, d, events, r);
    StepForgets(settings, d, events, r, s);
    if RefusesCandidates(settings, view) {
      assert a[..|a| - 1] == events;
      assert AssessedSince(a, |events|, |events|) == {};
      assert r + {} == r && s + {} == s;
    } else {
      var next := Next(settings, d, events, r);
      if next.Some? && !next.value.body.PrAttempted? {
        FoldStep(events, next.value);
        NextMakesProgress(settings, d, events, r);
        RunForgets(settings, d, events + [next.value], RecentAfter(r, next.value), RecentAfter(s, next.value));
        ForgetsEarlier(settings, d, events, next.value, r, s);
      } else if next.Some? {
        assert a[..|a| - 1] == events;
      }
    }
  }

  lemma {:induction false} ForgetsEarlier(settings: Settings, d: Delivery, events: seq<Event>, event: Event,
        r: set<string>, s: set<string>)
    requires Started(events) && !RefusesCandidates(settings, Fold(events))
    requires Started(events + [event])
    requires Run(settings, d, events, r) == Run(settings, d, events + [event], RecentAfter(r, event))
    requires Run(settings, d, events, s) == Run(settings, d, events + [event], RecentAfter(s, event))
    requires SameButWording(settings, d, events + [event], RecentAfter(r, event), RecentAfter(s, event))
    ensures SameButWording(settings, d, events, r, s)
  {
    hide Run, RefusesCandidates, Fold, Contain, RecentAfter, AssessedSince, RefusalReasons;
    var a := Run(settings, d, events, r);
    var longer := events + [event];
    assert a[|events|] == event;
    if |a| == |longer| {
      assert a[..|a| - 1] == events;
    } else {
      RememberedStep(a, |events|, |a| - 1, r);
      RememberedStep(a, |events|, |a| - 1, s);
    }
  }

  lemma {:induction false} RememberedStep(run: seq<Event>, from: nat, to: nat, recent: set<string>)
    requires from < to <= |run|
    ensures RecentAfter(recent, run[from]) + AssessedSince(run, from + 1, to) == recent + AssessedSince(run, from, to)
  {
  }

  lemma {:induction false} ContainEnds(settings: Settings, d: Delivery, events: seq<Event>, recent: set<string>,
        reasons: seq<Reason>)
    requires Started(events) && Fold(events).state in RESUMABLE
    requires Decide(settings, d, Fold(events), recent) == Some(Contain(d, reasons))
    ensures Run(settings, d, events, recent) == events + [Contain(d, reasons)]
  {
    hide Run, Decide, Contain;
    AdvanceSteps.ContainUnrolls(settings, d, events, recent, reasons);
  }

  // ---- One crash ----

  /** The log may be left at n events: some prefix of the run, not one ending in a failed PR attempt. */
  ghost predicate SafeCut(events: seq<Event>, run: seq<Event>, n: nat) {
    |events| <= n <= |run| && (n > |events| ==> !run[n - 1].body.PrAttempted?)
  }

  /** A finished run is left alone, unless it ended in a failed PR attempt. */
  lemma {:induction false} FinishedRunStays(settings: Settings, d: Delivery, events: seq<Event>, recent: set<string>)
    requires Started(events)
    ensures var run := Run(settings, d, events, recent);
            SafeCut(events, run, |run|) ==> Run(settings, d, run, {}) == run
    decreases StagesLeft(Fold(events)), |Pending(Fold(events).proposals, Fold(events).candidates)|
  {
    var run := Run(settings, d, events, recent);
    var next := Next(settings, d, events, recent);
    if next.None? {
      if Fold(events).state in RESUMABLE {
        DecideForgets(settings, d, Fold(events), recent, {});
      }
    } else if !next.value.body.PrAttempted? {
      FoldStep(events, next.value);
      NextMakesProgress(settings, d, events, recent);
      hide Decide, Apply, Checked;
      var longer := events + [next.value];
      FinishedRunStays(settings, d, longer, RecentAfter(recent, next.value));
      if |run| == |longer| {
        assert run == longer;
      }
    }
  }

  /** A refused run as it would be if its last call had started at this position. */
  ghost function Reworded(d: Delivery, run: seq<Event>, from: nat): (reworded: seq<Event>)
    requires |run| > 0
    ensures |reworded| == |run| && reworded[..|run| - 1] == run[..|run| - 1]
  {
    run[..|run| - 1] + [Contain(d, RefusalReasons(run, AssessedSince(run, from, |run| - 1)))]
  }

  /** Wherever the run is killed, a resumed run does what the uninterrupted one does,
      except that it words a refusal by what it has assessed itself. */
  lemma {:induction false} ResumeWords(settings: Settings, d: Delivery, events: seq<Event>, n: nat)
    requires Started(events) && SafeCut(events, Run(settings, d, events, {}), n)
    ensures var run := Run(settings, d, events, {});
            && Started(run[..n])
            && var resumed := Run(settings, d, run[..n], {});
               if n < |run| && EndsRefused(settings, events, run) then
                 && run == Reworded(d, run, |events|)
                 && resumed == Reworded(d, run, n)
               else resumed == run
  {
    hide Run, RefusesCandidates, Contain, RefusalReasons, Fold, AssessedSince;
    var run := Run(settings, d, events, {});
    if n == |run| {
      FinishedRunStays(settings, d, events, {});
      assert run[..n] == run;
    } else {
      var middle := RunPrefix(settings, d, events, {}, n);
      RunForgets(settings, d, run[..n], middle, {});
      AssessedInTwo(run, |events|, n, |run| - 1);
    }
  }

  lemma {:induction false} AssessedInTwo(events: seq<Event>, from: nat, n: nat, to: nat)
    requires from <= n <= to <= |events|
    ensures {} + AssessedSince(events, from, n) + AssessedSince(events, n, to) == AssessedSince(events, from, to)
    ensures {} + AssessedSince(events, n, to) == AssessedSince(events, n, to)
  {
  }

  /** Resuming from any safe cut of a run reaches what the uninterrupted run reaches. */
  lemma {:induction false} ResumeReachesSameEnd(settings: Settings, d: Delivery, events: seq<Event>, n: nat)
    requires Started(events) && SafeCut(events, Run(settings, d, events, {}), n)
    ensures var run := Run(settings, d, events, {});
            Started(run[..n]) && SameUpToContainment(d, Run(settings, d, run[..n], {}), run)
  {
    hide Run, EndsRefused, RefusalReasons, Contain, SafeCut;
    var run := Run(settings, d, events, {});
    ResumeWords(settings, d, events, n);
    if n < |run| && EndsRefused(settings, events, run) {
      RefusedAlike(d, run, |events|, n);
    }
  }

  lemma {:induction false} RefusedAlike(d: Delivery, run: seq<Event>, from: nat, other: nat)
    requires |run| > 0
    ensures SameUpToContainment(d, Reworded(d, run, other), Reworded(d, run, from))
  {
    hide RefusalReasons, Contain;
    var init := run[..|run| - 1];
    var x := RefusalReasons(run, AssessedSince(run, other, |run| - 1));
    var y := RefusalReasons(run, AssessedSince(run, from, |run| - 1));
    assert ContainedAfter(d, init, x, Reworded(d, run, other)) && ContainedAfter(d, init, y, Reworded(d, run, from));
  }

  // ---- The cuts that do show ----

  /** The step that attempts a PR, and what it needs to be decided on again. */
  lemma {:induction false} AttemptDecides(settings: Settings, d: Delivery, view: View, recent: set<string>)
    requires Decide(settings, d, view, recent).Some? && Decide(settings, d, view, recent).value.body.PrAttempted?
    ensures var event := Decide(settings, d, view, recent).value;
            Decide(settings, d, Apply(view, event), {}) == Some(event)
  {
    hide RaiseIncident, GatherContext, Generate, SelectPatch, WriteEvidence, Contain, Assess;
    DecideShape(settings, d, view, recent);
    OnlyDraftsAttempt(settings, d, view, recent);
    ApplyFields(view, Decide(settings, d, view, recent).value);
  }

  /** Of all the stages only the last one records a failed PR attempt. */
  lemma {:induction false} OnlyDraftsAttempt(settings: Settings, d: Delivery, view: View, recent: set<string>)
    requires Decide(settings, d, view, recent).Some? && Decide(settings, d, view, recent).value.body.PrAttempted?
    ensures view.incident.Some? && Ready(settings, view.incident.value)
    ensures view.context.Some? && Complete(view.context.value)
    ensures view.generation.Some? && view.proposals != [] && Ready(settings, view.generation.value)
    ensures DistinctIds(view.proposals) && view.state != CANDIDATES_READY
    ensures Pending(view.proposals, view.candidates) == [] && Eligible(view.proposals, view.candidates) != []
    ensures view.selected.Some? && view.patch.Some?
    ensures view.writeback.Some? && Ready(settings, view.writeback.value)
    ensures Decide(settings, d, view, recent).value == CreatePullRequest(d, view.patch.value)
    ensures Decide(settings, d, view, recent).value.body.attempt.integration.status != SUCCEEDED
  {
    var event := Decide(settings, d, view, recent).value;
    assert !RaiseIncident(d).body.PrAttempted?;
    assert !GatherContext(settings, d).body.PrAttempted?;
    assert forall reasons :: !Contain(d, reasons).body.PrAttempted?;
    assert view.context.Some? ==> !Generate(settings, d, view.context.value).body.PrAttempted?;
    hide RaiseIncident, GatherContext, Generate, Contain, Assess;
  }

  /** After a failed PR attempt a new run attempts it exactly once more, and with the same
      answers records the same event again. */
  lemma {:induction false} RetryRepeatsAttempt(settings: Settings, d: Delivery, events: seq<Event>)
    requires Started(events)
    requires var run := Run(settings, d, events, {});
             |run| > |events| && run[|run| - 1].body.PrAttempted?
    ensures var run := Run(settings, d, events, {});
            Run(settings, d, run, {}) == run + [run[|run| - 1]]
  {
    var run := Run(settings, d, events, {});
    var n := |run| - 1;
    var middle := RunPrefix(settings, d, events, {}, n);
    var view := Fold(run[..n]);
    var event := run[n];
    assert Decide(settings, d, view, middle) == Some(event);
    AttemptDecides(settings, d, view, middle);
    DecideShape(settings, d, view, middle);
    FoldStep(run[..n], event);
    assert run == run[..n] + [event];
    ApplyFields(view, event);
    assert Next(settings, d, run, {}) == Some(event);
  }

  lemma {:induction false} UnsafeCutShows(settings: Settings, d: Delivery, events: seq<Event>, n: nat)
    requires Started(events) && |events| <= n <= |Run(settings, d, events, {})|
    requires !SafeCut(events, Run(settings, d, events, {}), n)
    ensures var run := Run(settings, d, events, {});
            run[..n] == run && |Run(settings, d, run, {})| == |run| + 1
  {
    hide Run;
    var run := Run(settings, d, events, {});
    if n < |run| {
      var middle := RunPrefix(settings, d, events, {}, n);
    }
    RetryRepeatsAttempt(settings, d, events);
    assert run[..n] == run;
  }

  // ---- Any number of crashes ----

  /** Run, get killed after kills[0] appends, run again from there, get killed after kills[1], ... */
  ghost function Resumed(settings: Settings, d: Delivery, events: seq<Event>, kills: seq<nat>): seq<Event>
    requires Started(events)
    decreases |kills|
  {
    var run := Run(settings, d, events, {});
    if kills == [] then run
    else
      var n := if |events| + kills[0] < |run| then |events| + kills[0] else |run|;
      assert run[..n][0] == run[0];
      Resumed(settings, d, run[..n], kills[1..])
  }

  /** No kill leaves the log right after a failed PR attempt. */
  ghost predicate SafeKills(settings: Settings, d: Delivery, events: seq<Event>, kills: seq<nat>)
    requires Started(events)
    decreases |kills|
  {
    kills == [] ||
    var run := Run(settings, d, events, {});
    var n := if |events| + kills[0] < |run| then |events| + kills[0] else |run|;
    assert run[..n][0] == run[0];
    SafeCut(events, run, n) && SafeKills(settings, d, run[..n], kills[1..])
  }

  /** Where the call started that made the last step of a run of this length. */
  function LastStart(start: nat, total: nat, kills: seq<nat>): (from: nat)
    requires start <= total
    ensures start <= from <= total
    decreases |kills|
  {
    if kills == [] || start + kills[0] >= total then start
    else LastStart(start + kills[0], total, kills[1..])
  }

  lemma {:induction false} FinishedStays(settings: Settings, d: Delivery, events: seq<Event>, kills: seq<nat>)
    requires Started(events) && Run(settings, d, events, {}) == events
    ensures SafeKills(settings, d, events, kills) && Resumed(settings, d, events, kills) == events
    decreases |kills|
  {
    hide Run;
    if kills != [] {
      assert events[..|events|] == events;
      FinishedStays(settings, d, events, kills[1..]);
    }
  }

  /** What any number of kills leave behind. */
  ghost predicate KilledTo(settings: Settings, d: Delivery, events: seq<Event>, kills: seq<nat>)
    requires Started(events)
  {
    var run := Run(settings, d, events, {});
    var resumed := Resumed(settings, d, events, kills);
    if EndsRefused(settings, events, run) then
      && SafeKills(settings, d, events, kills)
      && run == Reworded(d, run, |events|)
      && resumed == Reworded(d, run, LastStart(|events|, |run|, kills))
    else if SafeKills(settings, d, events, kills) then resumed == run
    else |resumed| > |run|
  }

  lemma {:induction false} KillsLeave(settings: Settings, d: Delivery, events: seq<Event>, kills: seq<nat>)
    requires Started(events)
    ensures KilledTo(settings, d, events, kills)
    decreases |kills|
  {
    hide Run, RefusesCandidates, Contain, Reworded, Fold;
    var run := Run(settings, d, events, {});
    if kills == [] {
      if |events| < |run| {
        ResumeWords(settings, d, events, |events|);
        assert run[..|events|] == events;
      }
    } else {
      var n := if |events| + kills[0] < |run| then |events| + kills[0] else |run|;
      assert run[..n][0] == run[0];
      KillsLeave(settings, d, run[..n], kills[1..]);
      if n < |run| {
        KilledEarly(settings, d, events, kills);
      } else {
        assert run[..n] == run;
        KilledLate(settings, d, events, kills);
      }
    }
  }

  /** A kill before the run is through. */
  lemma {:induction false} KilledEarly(settings: Settings, d: Delivery, events: seq<Event>, kills: seq<nat>)
    requires Started(events) && kills != []
    requires var run := Run(settings, d, events, {});
             var n := |events| + kills[0];
             n < |run| && Started(run[..n]) && KilledTo(settings, d, run[..n], kills[1..])
    ensures KilledTo(settings, d, events, kills)
  {
    hide Run, RefusesCandidates, Contain, RefusalReasons, Fold;
    var run := Run(settings, d, events, {});
    var n := |events| + kills[0];
    var middle := RunPrefix(settings, d, events, {}, n);
    ResumeWords(settings, d, events, n);
    var resumed := Run(settings, d, run[..n], {});
    assert resumed[..|run| - 1] == run[..|run| - 1];
    RewordedAgain(d, run, resumed, LastStart(n, |run|, kills[1..]));
  }

  /** The wording looks at the events before the refusal only. */
  lemma {:induction false} RewordedAgain(d: Delivery, run: seq<Event>, resumed: seq<Event>, from: nat)
    requires |run| == |resumed| > 0 && resumed[..|run| - 1] == run[..|run| - 1]
    ensures Reworded(d, resumed, from) == Reworded(d, run, from)
  {
    hide Fold, Contain;
    var k := |run| - 1;
    assert forall i :: 0 <= i < k ==> resumed[i] == resumed[..k][i] == run[i];
    assert AssessedSince(resumed, from, k) == AssessedSince(run, from, k);
  }

  /** A kill after the run is through. */
  lemma {:induction false} KilledLate(settings: Settings, d: Delivery, events: seq<Event>, kills: seq<nat>)
    requires Started(events) && kills != []
    requires var run := Run(settings, d, events, {});
             |events| + kills[0] >= |run| && KilledTo(settings, d, run, kills[1..])
    ensures KilledTo(settings, d, events, kills)
  {
    hide Run, RefusesCandidates, Contain, RefusalReasons, Reworded, Fold;
    var run := Run(settings, d, events, {});
    assert run[..|run|] == run;
    if |events| < |run| {
      ResumeWords(settings, d, events, |events|);
      assert run[..|events|] == events;
    }
    if SafeCut(events, run, |run|) {
      ResumeWords(settings, d, events, |run|);
      FinishedStays(settings, d, run, kills[1..]);
    } else {
      UnsafeCutShows(settings, d, events, |run|);
      RewordedContains(d, run, |events|);
    }
  }

  lemma {:induction false} RewordedContains(d: Delivery, run: seq<Event>, from: nat)
    requires |run| > 0
    ensures !Reworded(d, run, from)[|run| - 1].body.PrAttempted?
  {
  }

  /** Whether the evidence writer raises on the refusal a run ends in, worded by a call that
      started at this position. */
  ghost predicate WriterRaises(d: Delivery, run: seq<Event>, from: nat)
    requires |run| > 0
  {
    var reasons := RefusalReasons(run, AssessedSince(run, from, |run| - 1));
    d.adapters.writeReport(d.change.entityUrn, d.caseId, Refused(Concise(reasons))).Raise?
  }

  lemma {:induction false} SameWhenRaisedAlike(d: Delivery, run: seq<Event>, from: nat, other: nat)
    requires |run| > 0
    ensures SameRecord(Reworded(d, run, other), Reworded(d, run, from))
            <==> (WriterRaises(d, run, from) <==> WriterRaises(d, run, other))
  {
    hide RefusalReasons, Concise;
    var k := |run| - 1;
    assert forall i :: 0 <= i < k ==> Reworded(d, run, other)[i] == Reworded(d, run, from)[i];
    assert Reworded(d, run, other)[k] == Contain(d, RefusalReasons(run, AssessedSince(run, other, k)));
    assert Reworded(d, run, from)[k] == Contain(d, RefusalReasons(run, AssessedSince(run, from, k)));
  }

  /** Crash-resume refinement: however often the run is killed and started again, the final
      log is the one of the uninterrupted run, up to the wording of a containment. It is the
      same record exactly when no kill comes right after a failed PR attempt and, where the
      run ends by refusing its candidates, the writer raises alike on the refusal as worded
      by the uninterrupted call and by the last one. */
  lemma {:induction false} CrashesDoNotShow(settings: Settings, d: Delivery, events: seq<Event>, kills: seq<nat>)
    requires Started(events)
    ensures SafeKills(settings, d, events, kills) ==>
            SameUpToContainment(d, Resumed(settings, d, events, kills), Run(settings, d, events, {}))
    ensures var run := Run(settings, d, events, {});
            SameRecord(Resumed(settings, d, events, kills), run) <==>
              && SafeKills(settings, d, events, kills)
              && (EndsRefused(settings, events, run) ==>
                  (WriterRaises(d, run, |events|) <==> WriterRaises(d, run, LastStart(|events|, |run|, kills))))
  {
    hide Run, EndsRefused, Reworded, Resumed, SafeKills, LastStart, WriterRaises;
    var run := Run(settings, d, events, {});
    KillsLeave(settings, d, events, kills);
    if EndsRefused(settings, events, run) {
      var from := LastStart(|events|, |run|, kills);
      RefusedAlike(d, run, |events|, from);
      SameWhenRaisedAlike(d, run, |events|, from);
    }
  }

  /** One crash, exactly: it shows right after a failed PR attempt, or if the writer raises on
      the refusal as worded by one of the two calls and not by the other. */
  lemma {:induction false} CrashShowsExactlyWhen(settings: Settings, d: Delivery, events: seq<Event>, n: nat)
    requires Started(events) && |events| <= n <= |Run(settings, d, events, {})|
    ensures var run := Run(settings, d, events, {});
            && Started(run[..n])
            && (SameRecord(Run(settings, d, run[..n], {}), run) <==>
                && SafeCut(events, run, n)
                && (n < |run| && EndsRefused(settings, events, run) ==>
                    (WriterRaises(d, run, |events|) <==> WriterRaises(d, run, n))))
  {
    hide Run, EndsRefused, WriterRaises, SafeCut;
    var run := Run(settings, d, events, {});
    var kills := [n - |events|];
    assert run[..n][0] == run[0];
    assert kills[1..] == [];
    assert Resumed(settings, d, events, kills) == Resumed(settings, d, run[..n], []);
    assert SafeKills(settings, d, events, kills) == SafeCut(events, run, n);
    assert LastStart(|events|, |run|, kills) == if n < |run| then n else |events|;
    CrashesDoNotShow(settings, d, events, kills);
  }

  // ---- A writer that minds the wording ----

  function Ok(): Integration {
    Integration(SUCCEEDED, None, "")
  }

  /** Adapters whose writer raises on a refusal that recalls an earlier assessment. */
  function PickyWriter(): Adapters {
    Adapters(
      (asset, caseId) => Reply(Ok()),
      asset => Raise,
      (change, context) => Raise,
      (caseId, proposal, context) => Raise,
      Raise,
      (asset, caseId, report: Report) =>
        if report.Refused? && report.reasons != [] && report.reasons[0].FailedEarlier? then Raise else Reply(Ok()),
      (caseId, patch) => Raise)
  }

  /** A case under validation, with its one proposal not yet assessed. */
  function UnderValidation(change: SchemaChange): seq<Event> {
    var proposals := [Proposal("p", "net_amount", "revenue", "")];
    [ Event(SchemaChangeDetected(change, ""), Some(DETECTED)),
      Event(IncidentRaised(Ok()), Some(DETECTED)),
      Event(ContextGathered(Context(Some("net"), true, DATAHUB_MCP, Ok(), "")), Some(CONTEXT_GATHERED)),
      Event(CandidatesReady(proposals, Ok()), Some(CANDIDATES_READY)),
      Event(ValidationStarted(1), Some(VALIDATING)) ]
  }

  /** The view of that case. */
  function ValidationView(change: SchemaChange): View {
    View(VALIDATING, change, "", false, Some(Ok()), Some(Context(Some("net"), true, DATAHUB_MCP, Ok(), "")), Some(Ok()),
         [Proposal("p", "net_amount", "revenue", "")], [], None, None, None, None, [], None)
  }

  lemma {:induction false} UnderValidationView(change: SchemaChange)
    ensures Started(UnderValidation(change)) && Fold(UnderValidation(change)) == ValidationView(change)
  {
    var events := UnderValidation(change);
    FoldStep(events[..1], events[1]);
    assert events[..2] == events[..1] + [events[1]];
    FoldStep(events[..2], events[2]);
    assert events[..3] == events[..2] + [events[2]];
    FoldStep(events[..3], events[3]);
    assert events[..4] == events[..3] + [events[3]];
    FoldStep(events[..4], events[4]);
    assert events == events[..4] + [events[4]];
  }

  /** A candidate that raises fails the default policy, first on its semantic evidence. */
  lemma {:induction false} RaisedCandidateFails(settings: Settings, d: Delivery, proposal: Proposal, context: Context)
    requires settings.policy == Policy.DEFAULT && d.adapters.execute(d.caseId, proposal, context).Raise?
    ensures var a := Assess(settings, d, proposal, context);
            && a.id == proposal.id && a.outcome == REJECTED
            && Policy.FailedNames(a.checks) != [] && Policy.FailedNames(a.checks)[0] == "semantic_evidence"
  {
    var checks := Policy.Checks(Policy.DEFAULT, Policy.FAILED_EXECUTION, context.lineageCurrent);
    assert !checks[0].passed && checks[0] in checks && checks[0].name == "semantic_evidence";
    var at := Policy.FailedNamesMeans(checks);
    hide Policy.FailedNames, Policy.NamesAt, Policy.Checks;
    Policy.FirstFails(checks, Policy.FailedNames(checks), at);
  }

  lemma {:induction false} AfterAssessment(settings: Settings, d: Delivery, view: View, proposal: Proposal,
        a: Assessment, recent: set<string>)
    requires view.incident.Some? && view.incident.value.status == SUCCEEDED
    requires view.context.Some? && Complete(view.context.value)
    requires view.generation.Some? && view.generation.value.status == SUCCEEDED
    requires view.proposals == [proposal] && view.candidates == [a] && a.id == proposal.id && a.outcome == REJECTED
    requires view.state == VALIDATING
    ensures Decide(settings, d, view, recent) ==
            Some(Contain(d, Worded(proposal, Policy.FailedNames(a.checks), proposal.id in recent)))
  {
    hide Contain, Worded;
    assert [proposal][..0] == [] && [proposal][1..] == [] && [proposal][0] == proposal;
    assert Assessed([a], proposal.id) == Some(a);
    assert Pending([proposal], [a]) == [];
    assert Eligible([proposal], [a]) == [];
    var words := Worded(proposal, Policy.FailedNames(a.checks), proposal.id in recent);
    assert Reasons([], [a], recent) + words == words;
    assert Reasons([proposal], [a], recent) == words;
    assert DistinctIds(view.proposals);
    assert Validate(settings, d, view, view.context.value, recent) == Some(Contain(d, words));
  }

  /** The first assessment of that case, in the uninterrupted run. */
  lemma {:induction false} FirstAssessment(settings: Settings, d: Delivery, change: SchemaChange, a: Assessment)
    requires a == Assess(settings, d, Proposal("p", "net_amount", "revenue", ""), ValidationView(change).context.value)
    requires a.id == "p"
    ensures var events := UnderValidation(change);
            var longer := events + [Event(CandidateAssessed(a), Some(VALIDATING))];
            && Started(events) && Started(longer)
            && Fold(longer) == ValidationView(change).(candidates := [a])
            && Run(settings, d, events, {}) == Run(settings, d, longer, {"p"})
  {
    hide Assess, UnderValidation;
    var events := UnderValidation(change);
    UnderValidationView(change);
    var view := ValidationView(change);
    var event := Event(CandidateAssessed(a), Some(VALIDATING));
    assert Pending(view.proposals, []) == view.proposals;
    assert Decide(settings, d, view, {}) == Some(event);
    FoldStep(events, event);
    assert RecentAfter({}, event) == {"p"};
    assert Next(settings, d, events, {}) == Some(event);
  }

  /** With a writer that minds the wording, a safe cut can end FAILED instead of CONTAINED. */
  lemma {:induction false} WordingCanShow(settings: Settings, change: SchemaChange)
    requires settings.policy == Policy.DEFAULT
    ensures var d := Delivery("c", change, PickyWriter());
            var events := UnderValidation(change);
            Started(events) &&
            var run := Run(settings, d, events, {});
            && SafeCut(events, run, |events| + 1)
            && Started(run[..|events| + 1])
            && !SameRecord(Run(settings, d, run[..|events| + 1], {}), run)
  {
    hide Run, Decide, Fold, Assess, Policy.FailedNames;
    var d := Delivery("c", change, PickyWriter());
    var events := UnderValidation(change);
    var proposal := Proposal("p", "net_amount", "revenue", "");
    var a := Assess(settings, d, proposal, ValidationView(change).context.value);
    RaisedCandidateFails(settings, d, proposal, ValidationView(change).context.value);
    FirstAssessment(settings, d, change, a);
    var longer := events + [Event(CandidateAssessed(a), Some(VALIDATING))];
    var names := Policy.FailedNames(a.checks);
    AfterAssessment(settings, d, Fold(longer), proposal, a, {});
    AfterAssessment(settings, d, Fold(longer), proposal, a, {"p"});
    ContainEnds(settings, d, longer, {"p"}, Worded(proposal, names, true));
    ContainEnds(settings, d, longer, {}, Worded(proposal, names, false));
    assert Concise(Worded(proposal, names, true))[0] == FailedNow("net_amount", "semantic_evidence");
    assert Concise(Worded(proposal, names, false))[0] == FailedEarlier("net_amount", "semantic_evidence");
    var run := Run(settings, d, events, {});
    assert run[..|events| + 1] == longer;
    assert run[|events| + 1].body.CaseContained?;
    assert Run(settings, d, longer, {})[|events| + 1].body.CaseFailed?;
  }
}
