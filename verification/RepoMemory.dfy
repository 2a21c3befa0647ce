/** The incremental memory index: notes re-indexed only when their text changed. */
module RepoMemory {
  import opened Model

  datatype Metadata = Metadata(title: string, status: string, tags: string, relatedFiles: string)

  datatype Chunk = Chunk(metadata: Metadata, contentHash: string, excerpt: string, vector: string)

  /** What indexing makes of a text: its hash, front matter, excerpt and embedding. */
  datatype Indexer = Indexer(
    sha256: string -> string,
    parseNote: (string, string) -> Metadata,
    excerpt: string -> string,
    embed: string -> string)

  /** The row a full index has for a note. */
  function Indexed(ix: Indexer, text: string, source: string): Chunk {
    Chunk(ix.parseNote(text, source), ix.sha256(text), ix.excerpt(text), ix.embed(text))
  }

  /** The table, by namespace and source. */
  type Chunks = map<(string, string), Chunk>

  /** The notes of a repository: text by source. */
  type Notes = map<string, string>

  function Lookup(chunks: Chunks, namespace: string, source: string): Option<Chunk> {
    if (namespace, source) in chunks then Some(chunks[(namespace, source)]) else None
  }

  function Sources(chunks: Chunks, namespace: string): (sources: set<string>)
    ensures forall source :: source in sources <==> (namespace, source) in chunks
  {
    var sources := set key | key in chunks && key.0 == namespace :: key.1;
    assert forall source :: (namespace, source) in chunks ==> (namespace, source).1 in sources;
    sources
  }

  // ---- Syncing as a function of what was there ----

  /** An up-to-date row is kept; any other note is indexed afresh; rows without a note go. */
  function SyncedRow(ix: Indexer, before: Option<Chunk>, notes: Notes, source: string): Option<Chunk> {
    if source !in notes then None
    else if before.Some? && before.value.contentHash == ix.sha256(notes[source]) then before
    else Some(Indexed(ix, notes[source], source))
  }

  function RebuiltRow(ix: Indexer, notes: Notes, source: string): Option<Chunk> {
    if source in notes then Some(Indexed(ix, notes[source], source)) else None
  }

  /** The namespace was synced, and no other was touched. */
  ghost predicate Synced(ix: Indexer, before: Chunks, after: Chunks, namespace: string, notes: Notes) {
    && (forall source :: Lookup(after, namespace, source)
                         == SyncedRow(ix, Lookup(before, namespace, source), notes, source))
    && (forall other, source :: other != namespace ==> Lookup(after, other, source) == Lookup(before, other, source))
  }

  /** The namespace holds what a rebuild from these notes would produce. */
  ghost predicate IsRebuilt(ix: Indexer, chunks: Chunks, namespace: string, notes: Notes) {
    forall source :: Lookup(chunks, namespace, source) == RebuiltRow(ix, notes, source)
  }

  /** Every row whose hash is current is the row that indexing would produce. */
  ghost predicate RetainedAreCurrent(ix: Indexer, chunks: Chunks, namespace: string, notes: Notes) {
    forall source :: source in notes && (namespace, source) in chunks
                     && chunks[(namespace, source)].contentHash == ix.sha256(notes[source])
                     ==> chunks[(namespace, source)] == Indexed(ix, notes[source], source)
  }

  /** A sync equals a rebuild exactly when the rows it keeps are the rows it would have made. */
  lemma {:induction false} SyncEqualsRebuild(ix: Indexer, before: Chunks, after: Chunks, namespace: string,
        notes: Notes)
    requires Synced(ix, before, after, namespace, notes)
    ensures IsRebuilt(ix, after, namespace, notes) <==> RetainedAreCurrent(ix, before, namespace, notes)
  {
    if IsRebuilt(ix, after, namespace, notes) {
      forall source | source in notes && (namespace, source) in before
                      && before[(namespace, source)].contentHash == ix.sha256(notes[source])
        ensures before[(namespace, source)] == Indexed(ix, notes[source], source)
      {
        assert Lookup(after, namespace, source) == RebuiltRow(ix, notes, source);
      }
    }
    if RetainedAreCurrent(ix, before, namespace, notes) {
      forall source ensures Lookup(after, namespace, source) == RebuiltRow(ix, notes, source) {
        assert Lookup(after, namespace, source) == SyncedRow(ix, Lookup(before, namespace, source), notes, source);
      }
    }
  }

  /** A row written by an older indexer is kept as long as its text stays the same. */
  lemma {:induction false} StaleRowSurvives(older: Indexer, newer: Indexer, text: string, source: string)
    requires older.sha256 == newer.sha256 && older.embed(text) != newer.embed(text)
    ensures var notes := map[source := text];
            var before := Some(Indexed(older, text, source));
            && SyncedRow(newer, before, notes, source) == before
            && SyncedRow(newer, before, notes, source) != RebuiltRow(newer, notes, source)
  {
  }

  // ---- Histories of syncs ----

  /** Every row of the namespace was made by this indexer from some text of its source. */
  ghost predicate Honest(ix: Indexer, chunks: Chunks, namespace: string) {
    forall source :: (namespace, source) in chunks ==>
      exists text :: chunks[(namespace, source)] == Indexed(ix, text, source)
  }

  /** With one indexer throughout, a sync always equals a rebuild, and leaves only its own rows. */
  lemma {:induction false} HonestSyncRebuilds(ix: Indexer, before: Chunks, after: Chunks, namespace: string,
        notes: Notes)
    requires Injective(ix.sha256) && Honest(ix, before, namespace) && Synced(ix, before, after, namespace, notes)
    ensures IsRebuilt(ix, after, namespace, notes) && Honest(ix, after, namespace)
  {
    forall source | source in notes && (namespace, source) in before
                    && before[(namespace, source)].contentHash == ix.sha256(notes[source])
      ensures before[(namespace, source)] == Indexed(ix, notes[source], source)
    {
      var text :| before[(namespace, source)] == Indexed(ix, text, source);
      assert ix.sha256(text) == ix.sha256(notes[source]);
    }
    SyncEqualsRebuild(ix, before, after, namespace, notes);
    forall source | (namespace, source) in after
      ensures exists text :: after[(namespace, source)] == Indexed(ix, text, source)
    {
      assert Lookup(after, namespace, source) == RebuiltRow(ix, notes, source);
      assert after[(namespace, source)] == Indexed(ix, notes[source], source);
    }
  }

  /** The table without the rows of a namespace, where a rebuild starts. */
  function Cleared(chunks: Chunks, namespace: string): Chunks {
    map key | key in chunks && key.0 != namespace :: chunks[key]
  }

  /** One call: which indexer ran, over which namespace and notes, and whether to rebuild. */
  datatype SyncCall = SyncCall(ix: Indexer, namespace: string, notes: Notes, rebuild: bool)

  function Start(before: Chunks, call: SyncCall): Chunks {
    if call.rebuild then Cleared(before, call.namespace) else before
  }

  ghost predicate Called(before: Chunks, after: Chunks, call: SyncCall) {
    Synced(call.ix, Start(before, call), after, call.namespace, call.notes)
  }

  /** Tables that syncs and rebuilds of any namespaces, by any versions of the indexer, lead to,
      one after the other, from an empty table. */
  ghost predicate History(tables: seq<Chunks>, calls: seq<SyncCall>) {
    && |tables| == |calls| + 1 && tables[0] == map[]
    && forall i :: 0 <= i < |calls| ==> Called(tables[i], tables[i + 1], calls[i])
  }

  predicate RebuiltBetween(calls: seq<SyncCall>, namespace: string, i: int, n: nat)
    requires n <= |calls|
  {
    exists j :: 0 <= j < n && i < j && calls[j].rebuild && calls[j].namespace == namespace
  }

  /** Since its latest rebuild, if it had one, only this indexer ran over the namespace. */
  ghost predicate OnlyBy(ix: Indexer, calls: seq<SyncCall>, namespace: string, n: nat)
    requires n <= |calls|
  {
    forall i :: 0 <= i < n && calls[i].namespace == namespace && !RebuiltBetween(calls, namespace, i, n)
                ==> calls[i].ix == ix
  }

  lemma {:induction false} ClearedIsHonest(ix: Indexer, chunks: Chunks, namespace: string)
    ensures Honest(ix, Cleared(chunks, namespace), namespace)
    ensures forall other, source :: other != namespace ==>
      Lookup(Cleared(chunks, namespace), other, source) == Lookup(chunks, other, source)
  {
  }

  /** A call over another namespace leaves the rows of this one. */
  lemma {:induction false} OtherCallKeeps(ix: Indexer, before: Chunks, after: Chunks, call: SyncCall,
        namespace: string)
    requires Called(before, after, call) && call.namespace != namespace && Honest(ix, before, namespace)
    ensures Honest(ix, after, namespace)
  {
    ClearedIsHonest(ix, before, call.namespace);
    forall source | (namespace, source) in after
      ensures exists text :: after[(namespace, source)] == Indexed(ix, text, source)
    {
      assert Lookup(after, namespace, source) == Lookup(Start(before, call), namespace, source);
      assert Lookup(after, namespace, source) == Lookup(before, namespace, source);
    }
  }

  lemma {:induction false} OnlyByEarlier(ix: Indexer, calls: seq<SyncCall>, namespace: string, n: nat)
    requires 0 < n <= |calls| && OnlyBy(ix, calls, namespace, n)
    requires !(calls[n - 1].rebuild && calls[n - 1].namespace == namespace)
    ensures OnlyBy(ix, calls, namespace, n - 1)
  {
    forall i | 0 <= i < n - 1 && calls[i].namespace == namespace && !RebuiltBetween(calls, namespace, i, n - 1)
      ensures calls[i].ix == ix
    {
      assert !RebuiltBetween(calls, namespace, i, n);
    }
  }

  lemma {:induction false} HistoryIsHonest(ix: Indexer, tables: seq<Chunks>, calls: seq<SyncCall>, n: nat,
        namespace: string)
    requires Injective(ix.sha256) && History(tables, calls) && n < |tables| && OnlyBy(ix, calls, namespace, n)
    ensures Honest(ix, tables[n], namespace)
    decreases n
  {
    if n > 0 {
      var call := calls[n - 1];
      assert Called(tables[n - 1], tables[n - 1 + 1], call);
      if call.namespace == namespace {
        assert !RebuiltBetween(calls, namespace, n - 1, n);
        assert call.ix == ix;
      }
      if call.namespace == namespace && call.rebuild {
        ClearedIsHonest(ix, tables[n - 1], namespace);
      } else {
        OnlyByEarlier(ix, calls, namespace, n);
        HistoryIsHonest(ix, tables, calls, n - 1, namespace);
      }
      hide Honest, Synced, OnlyBy;
      if call.namespace == namespace {
        HonestSyncRebuilds(ix, Start(tables[n - 1], call), tables[n], namespace, call.notes);
      } else {
        OtherCallKeeps(ix, tables[n - 1], tables[n], call, namespace);
      }
    }
  }

  /** However the notes changed before, whatever other namespaces did in between, and whichever
      indexers ran before the latest rebuild: after a sync or a rebuild the namespace is exactly
      what reindexing its current notes would give. */
  lemma {:induction false} IndexEqualsRebuild(tables: seq<Chunks>, calls: seq<SyncCall>, n: nat)
    requires History(tables, calls) && n < |calls| && Injective(calls[n].ix.sha256)
    requires calls[n].rebuild || OnlyBy(calls[n].ix, calls, calls[n].namespace, n)
    ensures IsRebuilt(calls[n].ix, tables[n + 1], calls[n].namespace, calls[n].notes)
  {
    var call := calls[n];
    assert Called(tables[n], tables[n + 1], call);
    if call.rebuild {
      ClearedIsHonest(call.ix, tables[n], call.namespace);
    } else {
      HistoryIsHonest(call.ix, tables, calls, n, call.namespace);
    }
    HonestSyncRebuilds(call.ix, Start(tables[n], call), tables[n + 1], call.namespace, call.notes);
  }

  /** An immediate second sync keeps every row. */
  lemma {:induction false} SecondSyncKeeps(ix: Indexer, before: Chunks, after: Chunks, again: Chunks,
        namespace: string, notes: Notes)
    requires Synced(ix, before, after, namespace, notes) && Synced(ix, after, again, namespace, notes)
    ensures again == after
  {
    forall key | key in after || key in again
      ensures key in after && key in again && again[key] == after[key]
    {
      assert key == (key.0, key.1);
      assert Lookup(again, key.0, key.1) == Lookup(after, key.0, key.1) by {
        if key.0 == namespace {
          assert Lookup(after, namespace, key.1) == SyncedRow(ix, Lookup(before, namespace, key.1), notes, key.1);
          assert Lookup(again, namespace, key.1) == SyncedRow(ix, Lookup(after, namespace, key.1), notes, key.1);
        }
      }
    }
    assert again.Keys == after.Keys;
  }

  // ---- The sync as it runs ----

  datatype Counts = Counts(scanned: nat, indexed: nat, updated: nat, untouched: nat, deleted: nat)

  /** What a sync reports, in terms of what was there and what the notes are. */
  ghost predicate Counted(ix: Indexer, existing: map<string, string>, notes: Notes, counts: Counts) {
    && counts.scanned == |notes|
    && counts.indexed == |set source | source in notes && source !in existing|
    && counts.untouched == |set source | source in notes && source in existing
        && existing[source] == ix.sha256(notes[source])|
    && counts.indexed + counts.updated + counts.untouched == counts.scanned
    && counts.deleted == |existing.Keys - notes.Keys|
  }

  function Hashes(chunks: Chunks, namespace: string): map<string, string> {
    map source | source in Sources(chunks, namespace) :: chunks[(namespace, source)].contentHash
  }

  /** The sources in `done` are synced; everything else is as it was. */
  ghost predicate Progress(ix: Indexer, start: Chunks, now: Chunks, namespace: string, notes: Notes,
        done: set<string>) {
    && (forall source :: Lookup(now, namespace, source) ==
         (if source in done then SyncedRow(ix, Lookup(start, namespace, source), notes, source)
          else Lookup(start, namespace, source)))
    && (forall other, source :: other != namespace ==> Lookup(now, other, source) == Lookup(start, other, source))
  }

  lemma {:induction false} ProgressStarts(ix: Indexer, start: Chunks, namespace: string, notes: Notes)
    ensures Progress(ix, start, start, namespace, notes, {})
  {
  }

  /** One more source whose row is now what it should be. */
  lemma {:induction false} ProgressStep(ix: Indexer, start: Chunks, now: Chunks, after: Chunks, namespace: string,
        notes: Notes,
                     done: set<string>, source: string)
    requires Progress(ix, start, now, namespace, notes, done)
    requires Lookup(after, namespace, source) == SyncedRow(ix, Lookup(start, namespace, source), notes, source)
    requires forall key :: key != (namespace, source) ==>
      (key in after <==> key in now) && (key in now ==> after[key] == now[key])
    ensures Progress(ix, start, after, namespace, notes, done + {source})
  {
    hide SyncedRow;
  }

  /** Once every note and every row is done, the namespace is synced. */
  lemma {:induction false} ProgressEnds(ix: Indexer, start: Chunks, now: Chunks, namespace: string, notes: Notes,
        done: set<string>)
    requires Progress(ix, start, now, namespace, notes, done)
    requires forall source :: source in notes || (namespace, source) in start ==> source in done
    ensures Synced(ix, start, now, namespace, notes)
  {
  }

  /** The sources done so far, by what became of them. */
  ghost predicate Tallied(ix: Indexer, existing: map<string, string>, notes: Notes, done: set<string>,
                          indexed: nat, updated: nat, untouched: nat)
  {
    && done <= notes.Keys
    && indexed == |NewSources(existing, done)|
    && untouched == |CurrentSources(ix, existing, notes, done)|
    && indexed + updated + untouched == |done|
  }

  ghost function NewSources(existing: map<string, string>, done: set<string>): set<string> {
    done - existing.Keys
  }

  ghost function CurrentSources(ix: Indexer, existing: map<string, string>, notes: Notes,
        done: set<string>): set<string>
    requires done <= notes.Keys
  {
    set source | source in done && source in existing && existing[source] == ix.sha256(notes[source])
  }

  lemma {:induction false} NewStep(existing: map<string, string>, done: set<string>, source: string)
    requires source !in done
    ensures |NewSources(existing, done + {source})| == |NewSources(existing, done)| + if source in existing then 0
        else 1
  {
    assert NewSources(existing, done + {source}) ==
           if source in existing then NewSources(existing, done) else NewSources(existing, done) + {source};
  }

  lemma {:induction false} CurrentStep(ix: Indexer, existing: map<string, string>, notes: Notes, done: set<string>,
        source: string)
    requires done <= notes.Keys && source in notes && source !in done
    ensures |CurrentSources(ix, existing, notes, done + {source})| ==
            |CurrentSources(ix, existing, notes, done)|
            + if source in existing && existing[source] == ix.sha256(notes[source]) then 1 else 0
  {
    assert CurrentSources(ix, existing, notes, done + {source}) ==
           if source in existing && existing[source] == ix.sha256(notes[source])
           then CurrentSources(ix, existing, notes, done) + {source} else CurrentSources(ix, existing, notes, done);
  }

  lemma {:induction false} TallyStep(ix: Indexer, existing: map<string, string>, notes: Notes, done: set<string>,
        source: string,
                  indexed: nat, updated: nat, untouched: nat)
    requires Tallied(ix, existing, notes, done, indexed, updated, untouched) && source in notes && source !in done
    ensures source !in existing ==> Tallied(ix, existing, notes, done + {source}, indexed + 1, updated, untouched)
    ensures source in existing && existing[source] == ix.sha256(notes[source]) ==>
      Tallied(ix, existing, notes, done + {source}, indexed, updated, untouched + 1)
    ensures source in existing && existing[source] != ix.sha256(notes[source]) ==>
      Tallied(ix, existing, notes, done + {source}, indexed, updated + 1, untouched)
  {
    NewStep(existing, done, source);
    CurrentStep(ix, existing, notes, done, source);
    hide NewSources, CurrentSources;
  }

  // ---- What a sync leaves behind, row by row ----

  /** The row was there before, its text has not changed since, and it is not a rebuild. */
  ghost predicate UpToDate(ix: Indexer, before: Chunks, key: (string, string), text: string, rebuild: bool) {
    !rebuild && key in before && before[key].contentHash == ix.sha256(text)
  }

  /** Every note has its row - the old one if up to date, else one with the title and tags, digest,
      excerpt and embedding of its text now; no other row of the namespace is left; other namespaces
      are as they were. */
  ghost predicate Leaves(ix: Indexer, namespace: string, notes: Notes, rebuild: bool, before: Chunks, after: Chunks) {
    && (forall source :: source in notes ==>
          var key, text := (namespace, source), notes[source];
          && key in after
          && if UpToDate(ix, before, key, text, rebuild) then after[key] == before[key]
             else && after[key].metadata == ix.parseNote(text, source)
                  && after[key].contentHash == ix.sha256(text)
                  && after[key].excerpt == ix.excerpt(text)
                  && after[key].vector == ix.embed(text))
    && (forall key :: key in after && key.0 == namespace ==> key.1 in notes)
    && (forall key: (string, string) :: key.0 != namespace ==>
          (key in after <==> key in before) && (key in before ==> after[key] == before[key]))
  }

  /** The counts: of the notes, those without a row before, those with one that was out of date, and
      those up to date; and the rows that lost their note. A rebuild finds no rows. */
  ghost predicate Tells(ix: Indexer, namespace: string, notes: Notes, rebuild: bool, before: Chunks, counts: Counts) {
    && counts.scanned == |notes|
    && counts.indexed == |set source | source in notes && (rebuild || (namespace, source) !in before)|
    && counts.untouched == |set source | source in notes
                                         && UpToDate(ix, before, (namespace, source), notes[source], rebuild)|
    && counts.updated == counts.scanned - counts.indexed - counts.untouched
    && counts.deleted == |set key | key in before && !rebuild && key.0 == namespace && key.1 !in notes|
  }

  lemma {:induction false} SyncLeaves(before: Chunks, after: Chunks, call: SyncCall)
    requires Called(before, after, call)
    ensures Leaves(call.ix, call.namespace, call.notes, call.rebuild, before, after)
  {
    var start := Start(before, call);
    forall source | source in call.notes
      ensures var key, text := (call.namespace, source), call.notes[source];
              && key in after
              && if UpToDate(call.ix, before, key, text, call.rebuild) then after[key] == before[key]
                 else after[key] == Indexed(call.ix, text, source)
    {
      assert Lookup(after, call.namespace, source)
             == SyncedRow(call.ix, Lookup(start, call.namespace, source), call.notes, source);
    }
    forall key | key in after && key.0 == call.namespace ensures key.1 in call.notes {
      assert key == (key.0, key.1);
      assert Lookup(after, call.namespace, key.1)
             == SyncedRow(call.ix, Lookup(start, call.namespace, key.1), call.notes, key.1);
    }
    forall key: (string, string) | key.0 != call.namespace
      ensures (key in after <==> key in before) && (key in before ==> after[key] == before[key])
    {
      assert key == (key.0, key.1);
      assert Lookup(after, key.0, key.1) == Lookup(start, key.0, key.1);
    }
  }

  /** Sets that correspond one to one have the same size. */
  lemma {:induction false} SameSize(sources: set<string>, keys: set<(string, string)>, namespace: string)
    requires forall key :: key in keys <==> key.0 == namespace && key.1 in sources
    ensures |keys| == |sources|
  {
    if sources == {} {
      assert keys == {};
    } else {
      var source :| source in sources;
      assert (namespace, source) in keys;
      SameSize(sources - {source}, keys - {(namespace, source)}, namespace);
    }
  }

  /** What the sync finds in the table it starts from. */
  lemma {:induction false} ExistingMeans(before: Chunks, call: SyncCall, source: string)
    ensures var existing, key := Hashes(Start(before, call), call.namespace), (call.namespace, source);
            && (source in existing <==> !call.rebuild && key in before)
            && (source in existing ==> existing[source] == before[key].contentHash)
  {
    HashesKeys(Start(before, call), call.namespace);
    hide Hashes;
  }

  lemma {:induction false} NewMeans(before: Chunks, call: SyncCall, existing: map<string, string>)
    requires existing == Hashes(Start(before, call), call.namespace)
    ensures (set source | source in call.notes && source !in existing)
            == set source | source in call.notes && (call.rebuild || (call.namespace, source) !in before)
  {
    hide Hashes, Start;
    forall source ensures source in existing <==> !call.rebuild && (call.namespace, source) in before {
      ExistingMeans(before, call, source);
    }
  }

  lemma {:induction false} KeptMeans(before: Chunks, call: SyncCall, existing: map<string, string>)
    requires existing == Hashes(Start(before, call), call.namespace)
    ensures (set source | source in call.notes && source in existing
                          && existing[source] == call.ix.sha256(call.notes[source]))
            == set source | source in call.notes
                            && UpToDate(call.ix, before, (call.namespace, source), call.notes[source], call.rebuild)
  {
    hide Hashes, Start;
    forall source | source in call.notes
      ensures source in existing && existing[source] == call.ix.sha256(call.notes[source]) <==>
              UpToDate(call.ix, before, (call.namespace, source), call.notes[source], call.rebuild)
    {
      ExistingMeans(before, call, source);
    }
    hide UpToDate;
  }

  lemma {:induction false} DroppedMeans(before: Chunks, call: SyncCall, existing: map<string, string>)
    requires existing == Hashes(Start(before, call), call.namespace)
    ensures |existing.Keys - call.notes.Keys|
            == |set key | key in before && !call.rebuild && key.0 == call.namespace && key.1 !in call.notes|
  {
    hide Hashes, Start;
    forall source ensures source in existing <==> !call.rebuild && (call.namespace, source) in before {
      ExistingMeans(before, call, source);
    }
    var dropped := set key | key in before && !call.rebuild && key.0 == call.namespace && key.1 !in call.notes;
    forall key: (string, string)
      ensures key in dropped <==> key.0 == call.namespace && key.1 in existing.Keys - call.notes.Keys
    {
      assert key == (key.0, key.1);
    }
    SameSize(existing.Keys - call.notes.Keys, dropped, call.namespace);
  }

  lemma {:induction false} SyncTells(before: Chunks, call: SyncCall, counts: Counts)
    requires Counted(call.ix, Hashes(Start(before, call), call.namespace), call.notes, counts)
    ensures Tells(call.ix, call.namespace, call.notes, call.rebuild, before, counts)
  {
    hide Hashes, Start, UpToDate;
    var existing := Hashes(Start(before, call), call.namespace);
    NewMeans(before, call, existing);
    KeptMeans(before, call, existing);
    DroppedMeans(before, call, existing);
  }

  class MemoryIndex {
    var chunks: Chunks

    constructor ()
      ensures chunks == map[]
    {
      chunks := map[];
    }

    /** Bring the namespace up to date with its notes; a rebuild drops its rows first. A refused
        note leaves the table as it was. */
    method Sync(ix: Indexer, namespace: string, found: Answer<Notes>, rebuild: bool) returns (answer: Answer<Counts>)
      modifies this
      ensures answer.Raise? <==> found.Raise?
      ensures answer.Raise? ==> chunks == old(chunks)
      ensures answer.Reply? ==>
        var call := SyncCall(ix, namespace, found.value, rebuild);
        && Called(old(chunks), chunks, call)
        && Counted(ix, Hashes(Start(old(chunks), call), namespace), found.value, answer.value)
      ensures answer.Reply? ==>
        && Leaves(ix, namespace, found.value, rebuild, old(chunks), chunks)
        && Tells(ix, namespace, found.value, rebuild, old(chunks), answer.value)
    {
      hide Synced, Counted, Hashes, Cleared, Progress, Tallied, Sources, Lookup, Leaves, Tells;
      if found.Raise? {
        return Raise;
      }
      var notes := found.value;
      if rebuild {
        chunks := Cleared(chunks, namespace);
      }
      ghost var start := chunks;
      var existing := Hashes(chunks, namespace);
      var indexed, updated, untouched := IndexNotes(ix, namespace, notes, existing);
      var deleted := DropRows(ix, namespace, notes, existing, start);
      TallyEnds(ix, existing, notes, indexed, updated, untouched);
      ghost var call := SyncCall(ix, namespace, notes, rebuild);
      SyncLeaves(old(chunks), chunks, call);
      SyncTells(old(chunks), call, Counts(|notes|, indexed, updated, untouched, deleted));
      return Reply(Counts(|notes|, indexed, updated, untouched, deleted));
    }

    /** Delete the rows of sources that have no note any more. */
    method DropRows(ix: Indexer, namespace: string, notes: Notes, existing: map<string, string>, ghost start: Chunks)
      returns (deleted: nat)
      requires existing == Hashes(start, namespace) && Progress(ix, start, chunks, namespace, notes, notes.Keys)
      modifies this
      ensures Synced(ix, start, chunks, namespace, notes) && deleted == |existing.Keys - notes.Keys|
    {
      hide *;
      var left := existing.Keys - notes.Keys;
      deleted := |left|;
      ghost var done := notes.Keys;
      while left != {}
        invariant notes.Keys !! left && notes.Keys <= done && existing.Keys <= done + left
        invariant Progress(ix, start, chunks, namespace, notes, done)
        decreases |left|
      {
        var source :| source in left;
        DropStep(ix, start, chunks, namespace, notes, done, source);
        chunks := chunks - {(namespace, source)};
        left := left - {source};
        done := done + {source};
      }
      DropsEnd(ix, start, chunks, namespace, notes, existing, done);
    }

    /** Insert or update every note whose hash is not the indexed one. */
    method IndexNotes(ix: Indexer, namespace: string, notes: Notes, existing: map<string, string>)
      returns (indexed: nat, updated: nat, untouched: nat)
      requires existing == Hashes(chunks, namespace)
      modifies this
      ensures Progress(ix, old(chunks), chunks, namespace, notes, notes.Keys)
      ensures Tallied(ix, existing, notes, notes.Keys, indexed, updated, untouched)
    {
      hide SyncedRow, Hashes, Progress, Lookup, Tallied;
      ghost var start := chunks;
      ghost var done: set<string> := {};
      ProgressStarts(ix, start, namespace, notes);
      TallyStarts(ix, existing, notes);
      indexed, updated, untouched := 0, 0, 0;
      var left := notes.Keys;
      while left != {}
        invariant left <= notes.Keys && done == notes.Keys - left
        invariant Progress(ix, start, chunks, namespace, notes, done)
        invariant Tallied(ix, existing, notes, done, indexed, updated, untouched)
        decreases |left|
      {
        var source :| source in left;
        var text := notes[source];
        TallyStep(ix, existing, notes, done, source, indexed, updated, untouched);
        NoteStep(ix, start, chunks, namespace, notes, existing, done, source);
        if source in existing && existing[source] == ix.sha256(text) {
          untouched := untouched + 1;
        } else {
          chunks := chunks[(namespace, source) := Indexed(ix, text, source)];
          if source in existing {
            updated := updated + 1;
          } else {
            indexed := indexed + 1;
          }
        }
        left := left - {source};
        done := done + {source};
      }
      assert done == notes.Keys;
    }
  }

  lemma {:induction false} DropStep(ix: Indexer, start: Chunks, now: Chunks, namespace: string, notes: Notes,
        done: set<string>, source: string)
    requires Progress(ix, start, now, namespace, notes, done) && source !in notes
    ensures Progress(ix, start, now - {(namespace, source)}, namespace, notes, done + {source})
  {
    RowDropped(ix, start, now, namespace, notes, source);
    hide SyncedRow, Progress, Lookup;
    ProgressStep(ix, start, now, now - {(namespace, source)}, namespace, notes, done, source);
  }

  lemma {:induction false} DropsEnd(ix: Indexer, start: Chunks, now: Chunks, namespace: string, notes: Notes,
        existing: map<string, string>, done: set<string>)
    requires Progress(ix, start, now, namespace, notes, done) && existing == Hashes(start, namespace)
    requires notes.Keys <= done && existing.Keys <= done
    ensures Synced(ix, start, now, namespace, notes)
  {
    HashesKeys(start, namespace);
    hide Progress, Synced, Hashes;
    ProgressEnds(ix, start, now, namespace, notes, done);
  }

  lemma {:induction false} TallyStarts(ix: Indexer, existing: map<string, string>, notes: Notes)
    ensures Tallied(ix, existing, notes, {}, 0, 0, 0)
  {
    assert CurrentSources(ix, existing, notes, {}) == {} && NewSources(existing, {}) == {};
  }

  /** Handling one note brings its row up to date. */
  lemma {:induction false} NoteStep(ix: Indexer, start: Chunks, now: Chunks, namespace: string, notes: Notes,
        existing: map<string, string>,
                 done: set<string>, source: string)
    requires Progress(ix, start, now, namespace, notes, done) && existing == Hashes(start, namespace)
    requires source in notes && source !in done
    ensures source in existing && existing[source] == ix.sha256(notes[source]) ==>
      Progress(ix, start, now, namespace, notes, done + {source})
    ensures !(source in existing && existing[source] == ix.sha256(notes[source])) ==>
      Progress(ix, start, now[(namespace, source) := Indexed(ix, notes[source], source)], namespace, notes,
          done + {source})
  {
    HashesKeys(start, namespace);
    hide SyncedRow, Progress, Lookup, Hashes;
    if source in existing && existing[source] == ix.sha256(notes[source]) {
      RowKept(ix, start, now, namespace, notes, done, source);
      ProgressStep(ix, start, now, now, namespace, notes, done, source);
    } else {
      RowIndexed(ix, start, now, namespace, notes, source);
      ProgressStep(ix, start, now, now[(namespace, source) := Indexed(ix, notes[source], source)], namespace, notes,
          done, source);
    }
  }

  lemma {:induction false} HashesKeys(chunks: Chunks, namespace: string)
    ensures forall source :: source in Hashes(chunks, namespace) <==> (namespace, source) in chunks
    ensures forall source :: source in Hashes(chunks, namespace) ==>
      Hashes(chunks, namespace)[source] == chunks[(namespace, source)].contentHash
  {
  }

  lemma {:induction false} RowDropped(ix: Indexer, start: Chunks, now: Chunks, namespace: string, notes: Notes,
        source: string)
    requires source !in notes
    ensures Lookup(now - {(namespace, source)}, namespace, source)
        == SyncedRow(ix, Lookup(start, namespace, source), notes, source)
  {
  }

  lemma {:induction false} RowKept(ix: Indexer, start: Chunks, now: Chunks, namespace: string, notes: Notes,
        done: set<string>, source: string)
    requires Progress(ix, start, now, namespace, notes, done) && source !in done
    requires source in notes && (namespace, source) in start
    requires start[(namespace, source)].contentHash == ix.sha256(notes[source])
    ensures Lookup(now, namespace, source) == SyncedRow(ix, Lookup(start, namespace, source), notes, source)
  {
  }

  lemma {:induction false} RowIndexed(ix: Indexer, start: Chunks, now: Chunks, namespace: string, notes: Notes,
        source: string)
    requires source in notes
    requires (namespace, source) in start ==> start[(namespace, source)].contentHash != ix.sha256(notes[source])
    ensures Lookup(now[(namespace, source) := Indexed(ix, notes[source], source)], namespace, source) ==
            SyncedRow(ix, Lookup(start, namespace, source), notes, source)
  {
  }

  lemma {:induction false} TallyEnds(ix: Indexer, existing: map<string, string>, notes: Notes, indexed: nat,
        updated: nat, untouched: nat)
    requires Tallied(ix, existing, notes, notes.Keys, indexed, updated, untouched)
    ensures Counted(ix, existing, notes, Counts(|notes|, indexed, updated, untouched, |existing.Keys - notes.Keys|))
  {
    AllNew(existing, notes);
    AllCurrent(ix, existing, notes);
    hide NewSources, CurrentSources;
  }

  lemma {:induction false} AllNew(existing: map<string, string>, notes: Notes)
    ensures (set source | source in notes && source !in existing) == NewSources(existing, notes.Keys)
  {
  }

  lemma {:induction false} AllCurrent(ix: Indexer, existing: map<string, string>, notes: Notes)
    ensures (set source | source in notes && source in existing && existing[source] == ix.sha256(notes[source]))
            == CurrentSources(ix, existing, notes, notes.Keys)
  {
  }
}
