/** A race that ends badly: for every key there is an interleaving in which a process that looks
    the key up finds no id for it. */
module RaceWitness {
  import opened Model
  import opened Log
  import opened Store
  import opened CaseIdentity
  import opened IngestRace

  lemma {:induction false} RacePlus(s: System, a: seq<Step>, b: seq<Step>)
    ensures Race(s, a + b) == Race(Race(s, a), b)
  {
    if b == [] {
      assert a + b == a;
    } else {
      var init := b[..|b| - 1];
      RacePlus(s, a, init);
      assert (a + b)[..|a + b| - 1] == a + init;
    }
  }

  lemma {:induction false} RaceOne(s: System, step: Step)
    ensures Race(s, [step]) == Perform(s, step)
  {
    assert [step][..0] == [];
    assert Race(s, []) == s;
  }

  // ---- One ingest that nothing disturbs ----

  /** Probing past ids that are taken. */
  lemma {:induction false} ProbesUp(s: System, p: nat, width: nat, to: nat) returns (steps: seq<Step>)
    requires p < |s.processes| && s.processes[p].phase.Probing? && |s.processes[p].key| == 64
    requires s.processes[p].phase.width == width && Width(width) && Width(to) && width <= to
    requires forall w: nat :: Width(w) && width <= w < to ==> CaseIdExists(s.rows, WideId(s.processes[p].key, w))
    ensures Race(s, steps) == WithPhase(s, p, s.processes[p].phase.(width := to))
    decreases 72 - width
  {
    hide CaseIdExists, WideId;
    if width == to {
      steps := [];
      assert s.processes[p := s.processes[p]] == s.processes;
    } else {
      assert CaseIdExists(s.rows, WideId(s.processes[p].key, width));
      var next := Perform(s, Probe(p));
      assert next == WithPhase(s, p, s.processes[p].phase.(width := width + 8));
      var rest := ProbesUp(next, p, width + 8, to);
      steps := [Probe(p)] + rest;
      RaceOne(s, Probe(p));
      RacePlus(s, [Probe(p)], rest);
    }
  }

  /** A process looks up a key that nobody has. */
  lemma {:induction false} Looks(s: System, p: nat, change: SchemaChange, key: string) returns (steps: seq<Step>)
    requires p < |s.processes| && Finished(s.processes[p].phase) && Digest(key)
    requires FindCaseForDedup(s.rows, key).None?
    ensures Race(s, steps) == s.(processes := s.processes[p := Process(change, key, Probing(0, 8, |s.rows|))])
  {
    hide FindCaseForDedup, Digest;
    var begun := Perform(s, Begin(p, change, key));
    steps := [Begin(p, change, key)] + [LookUp(p)];
    RaceOne(s, Begin(p, change, key));
    RaceOne(begun, LookUp(p));
    RacePlus(s, [Begin(p, change, key)], [LookUp(p)]);
  }

  /** Undisturbed, an ingest of a key that nobody has takes the narrowest free id. */
  lemma {:induction false} Ingests(s: System, p: nat, change: SchemaChange, key: string, width: nat)
    returns (steps: seq<Step>)
    requires LegalLog(s.rows) && p < |s.processes| && Finished(s.processes[p].phase) && Digest(key)
    requires FindCaseForDedup(s.rows, key).None? && change.eventId.None? && Width(width)
    requires forall w: nat :: Width(w) && w < width ==> CaseIdExists(s.rows, WideId(key, w))
    requires !CaseIdExists(s.rows, WideId(key, width))
    ensures var caseId := WideId(key, width);
            Race(s, steps) == System(
              s.rows + [RowFor(s.rows, DetectionOf(change, key, caseId), 0)],
              s.processes[p := Process(change, key, Answered(caseId, CurrentScope(s.rows), false))])
  {
    LengthOfDigest(key);
    hide LegalLog, FindCaseForDedup, Digest, CaseIdExists, WideId, CurrentScope, AppendOutcome, RowFor, Race, Perform;
    var looks := Looks(s, p, change, key);
    var looked := Race(s, looks);
    var probes := ProbesUp(looked, p, 8, width);
    var probed := Race(looked, probes);
    var claims := Claims(probed, p, change, key, width);
    steps := looks + (probes + claims);
    RacePlus(looked, probes, claims);
    RacePlus(s, looks, probes + claims);
    assert probed.processes[p := Process(change, key, Answered(WideId(key, width), CurrentScope(s.rows), false))]
        == s.processes[p := Process(change, key, Answered(WideId(key, width), CurrentScope(s.rows), false))];
  }

  /** A process that probes a free id claims it. */
  lemma {:induction false} Claims(s: System, p: nat, change: SchemaChange, key: string, width: nat)
    returns (steps: seq<Step>)
    requires LegalLog(s.rows) && p < |s.processes| && |key| == 64 && width <= 64
    requires FindCaseForDedup(s.rows, key).None? && change.eventId.None? && !CaseIdExists(s.rows, WideId(key, width))
    requires s.processes[p].key == key && s.processes[p].change == change && s.processes[p].phase.Probing?
    requires s.processes[p].phase.width == width
    ensures var caseId := WideId(key, width);
            Race(s, steps) == System(
              s.rows + [RowFor(s.rows, DetectionOf(change, key, caseId), 0)],
              s.processes[p := Process(change, key, Answered(caseId, CurrentScope(s.rows), false))])
  {
    FreeIsTaken(s.rows, change, key, WideId(key, width));
    hide LegalLog, FindCaseForDedup, CaseIdExists, WideId, CurrentScope, AppendOutcome, RowFor, Race;
    var found := Perform(s, Probe(p));
    var checked := Perform(found, CheckId(p));
    RaceOne(s, Probe(p));
    RaceOne(found, CheckId(p));
    RaceOne(checked, TryAppend(p, 0));
    RacePlus(found, [CheckId(p)], [TryAppend(p, 0)]);
    RacePlus(s, [Probe(p)], [CheckId(p)] + [TryAppend(p, 0)]);
    steps := [Probe(p)] + ([CheckId(p)] + [TryAppend(p, 0)]);
  }

  /** The append of a detection under a free id, for a key that nobody has, succeeds. */
  lemma {:induction false} FreeIsTaken(rows: seq<Row>, change: SchemaChange, key: string, caseId: string)
    requires LegalLog(rows) && FindCaseForDedup(rows, key).None? && change.eventId.None? && !CaseIdExists(rows, caseId)
    ensures var req := DetectionOf(change, key, caseId);
            && AppendOutcome(rows, req, 0) == Appended(RowFor(rows, req, 0))
            && AfterAppend(rows, req, 0) == rows + [RowFor(rows, req, 0)]
            && CheckEventId(rows, req).Unbound?
  {
    StateMeansExists(rows, caseId);
    LegalIsValid(rows);
    FreshIdIsFresh(rows, CurrentScope(rows));
  }

  // ---- Keys that crowd another out ----

  /** The key with one digit changed: it shares the digits before it. */
  function Neighbour(key: string, at: nat): string
    requires at < |key|
  {
    key[at := if key[at] == '0' then '1' else '0']
  }

  lemma {:induction false} NeighbourShares(key: string, at: nat)
    requires Digest(key) && at < 64
    ensures Digest(Neighbour(key, at)) && Neighbour(key, at) != key
    ensures forall w: nat :: w <= at ==> WideId(Neighbour(key, at), w) == WideId(key, w)
    ensures forall other: nat :: other < 64 && other != at ==> Neighbour(key, at) != Neighbour(key, other)
  {
    var near := Neighbour(key, at);
    assert near[at] != key[at];
    forall w: nat | w <= at ensures WideId(near, w) == WideId(key, w) {
      assert Upper(near)[..w] == Upper(key)[..w];
    }
    forall other: nat | other < 64 && other != at ensures near != Neighbour(key, other) {
      assert Neighbour(key, other)[at] == key[at];
    }
  }

  /** The first n widths of the key are held by neighbours of it, and nothing else is recorded. */
  ghost predicate Crowded(rows: seq<Row>, key: string, n: nat)
    requires |key| == 64
  {
    && |rows| == n <= 7
    && CurrentScope(rows) == 0
    && forall i :: 0 <= i < n ==>
         && rows[i].dedupKey == Some(Neighbour(key, 8 * (i + 1)))
         && rows[i].caseId == WideId(key, 8 * (i + 1))
         && rows[i].resetScope == 0
  }

  lemma {:induction false} CrowdedUpTo(rows: seq<Row>, key: string, n: nat, w: nat)
    requires ValidLog(rows) && |key| == 64 && Crowded(rows, key, n) && Width(w)
    ensures CaseIdExists(rows, WideId(key, w)) <==> w <= 8 * n
  {
    hide ValidLog, CurrentScope, CaseIdExists;
    ExistsMeans(rows, WideId(key, w));
    var k := w / 8;
    assert w == 8 * k && |WideId(key, w)| == 3 + w;
    if k <= n {
      assert RowOf(rows, k - 1, WideId(key, w), CurrentScope(rows));
    } else {
      forall i ensures !RowOf(rows, i, WideId(key, w), CurrentScope(rows)) {
        assert 0 <= i < n ==> |rows[i].caseId| == 3 + 8 * (i + 1);
      }
    }
  }

  lemma {:induction false} CrowdedMeans(rows: seq<Row>, key: string, n: nat)
    requires LegalLog(rows) && Digest(key) && |key| == 64 && Crowded(rows, key, n)
    ensures forall w: nat :: Width(w) ==> (CaseIdExists(rows, WideId(key, w)) <==> w <= 8 * n)
    ensures FindCaseForDedup(rows, key).None?
    ensures n < 7 ==> FindCaseForDedup(rows, Neighbour(key, 8 * (n + 1))).None?
  {
    hide LegalLog, CurrentScope, CaseIdExists, FindCaseForDedup;
    LegalIsValid(rows);
    forall w: nat | Width(w) ensures CaseIdExists(rows, WideId(key, w)) <==> w <= 8 * n {
      CrowdedUpTo(rows, key, n, w);
    }
    hide WideId;
    forall i | 0 <= i < n ensures rows[i].dedupKey != Some(key) {
      NeighbourShares(key, 8 * (i + 1));
    }
    FoundIsRecorded(rows, key);
    if n < 7 {
      NeighbourShares(key, 8 * (n + 1));
      FoundIsRecorded(rows, Neighbour(key, 8 * (n + 1)));
    }
  }

  /** Any number of the key's narrower ids can be taken by other keys. */
  lemma {:induction false} CanBeCrowded(change: SchemaChange, key: string, n: nat) returns (steps: seq<Step>)
    requires Digest(key) && |key| == 64 && change.eventId.None? && n <= 7
    ensures var after := Race(Start(), steps);
            && LegalLog(after.rows) && Crowded(after.rows, key, n)
            && |after.processes| == 2 && after.processes[0].phase.Idle? && Finished(after.processes[1].phase)
  {
    if n == 0 {
      steps := [];
      assert ValidLog([]);
    } else {
      hide LegalLog, Digest, Race, Crowded, Knows;
      var before := CanBeCrowded(change, key, n - 1);
      var s := Race(Start(), before);
      var more := OneMore(s, change, key, n);
      steps := before + more;
      RacePlus(Start(), before, more);
      RaceKeepsInvariant(Start(), steps);
    }
  }

  lemma {:induction false} OneMore(s: System, change: SchemaChange, key: string, n: nat) returns (steps: seq<Step>)
    requires Digest(key) && |key| == 64 && change.eventId.None? && 0 < n <= 7 && LegalLog(s.rows)
    requires |s.processes| == 2 && s.processes[0].phase.Idle? && Finished(s.processes[1].phase)
    requires Crowded(s.rows, key, n - 1)
    ensures var after := Race(s, steps);
            && Crowded(after.rows, key, n)
            && |after.processes| == 2 && after.processes[0].phase.Idle? && Finished(after.processes[1].phase)
  {
    NeighbourComesNext(s.rows, key, n);
    hide LegalLog, Digest, CaseIdExists, WideId, FindCaseForDedup, Neighbour, Race, Crowded, RowFor, CurrentScope;
    steps := Ingests(s, 1, change, Neighbour(key, 8 * n), 8 * n);
    CrowdsOneMore(s.rows, change, key, n);
  }

  /** The next neighbour of the key is not recorded, and finds the narrower ids taken and the next one free. */
  lemma {:induction false} NeighbourComesNext(rows: seq<Row>, key: string, n: nat)
    requires LegalLog(rows) && Digest(key) && |key| == 64 && 0 < n <= 7 && Crowded(rows, key, n - 1)
    ensures var near := Neighbour(key, 8 * n);
            && Digest(near) && |near| == 64 && WideId(near, 8 * n) == WideId(key, 8 * n)
            && FindCaseForDedup(rows, near).None?
            && !CaseIdExists(rows, WideId(near, 8 * n))
            && forall w: nat :: Width(w) && w < 8 * n ==> CaseIdExists(rows, WideId(near, w))
  {
    CrowdedMeans(rows, key, n - 1);
    NeighbourShares(key, 8 * n);
    hide LegalLog, Digest, CaseIdExists, WideId, FindCaseForDedup, Crowded, Neighbour;
    var near := Neighbour(key, 8 * n);
    assert Width(8 * n);
    forall w: nat | Width(w) && w < 8 * n ensures CaseIdExists(rows, WideId(near, w)) {
      assert WideId(near, w) == WideId(key, w);
    }
  }

  lemma {:induction false} CrowdsOneMore(rows: seq<Row>, change: SchemaChange, key: string, n: nat)
    requires |key| == 64 && 0 < n <= 7 && Crowded(rows, key, n - 1)
    requires WideId(Neighbour(key, 8 * n), 8 * n) == WideId(key, 8 * n)
    ensures var near := Neighbour(key, 8 * n);
            Crowded(rows + [RowFor(rows, DetectionOf(change, near, WideId(near, 8 * n)), 0)], key, n)
  {
    hide WideId;
    var near := Neighbour(key, 8 * n);
    var row := RowFor(rows, DetectionOf(change, near, WideId(near, 8 * n)), 0);
    assert (rows + [row])[..|rows|] == rows;
  }

  /** Two idle processes on an empty log. */
  ghost function Start(): System {
    var change := SchemaChange(None, "", [], [], 0, "");
    System([], [Process(change, "", Idle), Process(change, "", Idle)])
  }

  /** One process looks up a key whose narrower ids are taken, another records it under the id
      that is left, and every probe of the first finds its id taken. */
  lemma {:induction false} FailsFrom(s: System, change: SchemaChange, key: string) returns (steps: seq<Step>)
    requires Digest(key) && |key| == 64 && change.eventId.None? && LegalLog(s.rows) && Crowded(s.rows, key, 7)
    requires |s.processes| == 2 && s.processes[0].phase.Idle? && Finished(s.processes[1].phase)
    ensures var after := Race(s, steps);
            && |after.processes| == 2
            && after.processes[0].key == key && after.processes[0].phase.Unavailable?
  {
    CrowdedMeans(s.rows, key, 7);
    NowAllTaken(s.rows, change, key);
    hide LegalLog, Digest, CaseIdExists, WideId, FindCaseForDedup, Crowded, Race, RowFor, CurrentScope, AppendOutcome;
    var looks := Looks(s, 0, change, key);
    var looked := Race(s, looks);
    var ingests := Ingests(looked, 1, change, key, 64);
    var taken := Race(looked, ingests);
    var probes := ProbesOut(taken, 0);
    RacePlus(looked, ingests, probes);
    steps := looks + (ingests + probes);
    RacePlus(s, looks, ingests + probes);
  }

  /** Where every id is taken, a process probes them all and gives up. */
  lemma {:induction false} ProbesOut(s: System, p: nat) returns (steps: seq<Step>)
    requires p < |s.processes| && s.processes[p].phase.Probing? && s.processes[p].phase.width == 8
    requires |s.processes[p].key| == 64
    requires forall w: nat :: Width(w) ==> CaseIdExists(s.rows, WideId(s.processes[p].key, w))
    ensures Race(s, steps) == WithPhase(s, p, Unavailable(s.processes[p].phase.seen, CurrentScope(s.rows)))
  {
    hide CaseIdExists, WideId, CurrentScope, Race;
    var probes := ProbesUp(s, p, 8, 64);
    var probed := Race(s, probes);
    assert Width(64);
    RaceOne(probed, Probe(p));
    RacePlus(s, probes, [Probe(p)]);
    steps := probes + [Probe(p)];
  }

  /** For every key there is a race, of two processes on an empty log, in which a process that
      looks the key up ends without an id: the RuntimeError is reached. */
  lemma {:induction false} AllocationCanFail(change: SchemaChange, key: string) returns (steps: seq<Step>)
    requires Digest(key) && change.eventId.None?
    ensures Fresh(Start())
    ensures Race(Start(), steps).processes[0].key == key && Race(Start(), steps).processes[0].phase.Unavailable?
  {
    LengthOfDigest(key);
    hide LegalLog, Digest, Crowded, Race;
    var crowd := CanBeCrowded(change, key, 7);
    var fails := FailsFrom(Race(Start(), crowd), change, key);
    steps := crowd + fails;
    RacePlus(Start(), crowd, fails);
  }

  lemma {:induction false} NowAllTaken(rows: seq<Row>, change: SchemaChange, key: string)
    requires LegalLog(rows) && Digest(key) && |key| == 64 && change.eventId.None? && Crowded(rows, key, 7)
    ensures var after := rows + [RowFor(rows, DetectionOf(change, key, WideId(key, 64)), 0)];
            forall w: nat :: Width(w) ==> CaseIdExists(after, WideId(key, w))
  {
    CrowdedMeans(rows, key, 7);
    var req := DetectionOf(change, key, WideId(key, 64));
    var after := rows + [RowFor(rows, req, 0)];
    FreeIsTaken(rows, change, key, WideId(key, 64));
    assert OwnId(WideId(key, 64), key) by { assert Width(64); }
    LegalAppend(rows, req, 0);
    LegalIsValid(rows);
    LegalIsValid(after);
    KeepsScope(rows, req, 0);
    hide LegalLog, CaseIdExists, CurrentScope, AppendOutcome, AfterAppend;
    forall w: nat | Width(w) ensures CaseIdExists(after, WideId(key, w)) {
      if w < 64 {
        ExistsStays(rows, after, WideId(key, w));
      } else {
        ExistsMeans(after, WideId(key, 64));
        assert RowOf(after, |rows|, WideId(key, 64), CurrentScope(after));
      }
    }
  }
}
