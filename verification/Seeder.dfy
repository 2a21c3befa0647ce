/** The seeder as it runs: it reads and emits aspects of a catalog, then verifies the result. */
module Seeder {
  import opened Model
  import opened Metadata
  import opened SeedRules
  import opened SeedContext
  import SeedMeaning

  /** A catalog that reads back what was emitted. */
  class AspectStore {
    var aspects: map<Key, Json>
    var entities: set<string>

    constructor (aspects: map<Key, Json>, entities: set<string>)
      requires ValidCatalog(Catalog(aspects, entities))
      ensures Valid() && Contents() == Catalog(aspects, entities)
    {
      this.aspects := aspects;
      this.entities := entities;
    }

    ghost predicate Valid()
      reads this
    {
      ValidCatalog(Contents())
    }

    function Contents(): Catalog
      reads this
    {
      Catalog(aspects, entities)
    }

    method EntityExists(urn: string) returns (found: bool)
      ensures found <==> urn in entities
    {
      found := urn in entities;
    }

    /** The aspect, or the empty map. */
    method GetAspect(key: Key) returns (current: Json)
      requires Valid()
      ensures current == Current(Contents(), key) && current.Obj?
    {
      current := if key in aspects then aspects[key] else Obj(map[]);
    }

    method EmitAspect(key: Key, value: Json)
      requires Valid() && value.Obj?
      modifies this
      ensures Valid() && Contents() == Emitted(old(Contents()), key, value)
    {
      aspects := aspects[key := value];
      entities := entities + {key.urn};
    }
  }

  /** The rule was applied, and the list of changes says whether it wrote. */
  ghost predicate Applied(rule: Rule, stamp: Json, before: Catalog, after: Catalog, changed: seq<Key>,
        changedAfter: seq<Key>)
  {
    after == EnsureRule(before, rule, stamp) && changedAfter == changed + Writes(before, rule)
  }

  // ---- One aspect at a time ----

  method EnsureObjectAspect(store: AspectStore, urn: string, name: AspectName, required: JsonMap, changed: seq<Key>,
        ghost stamp: Json)
    returns (changedAfter: seq<Key>)
    requires store.Valid()
    modifies store
    ensures store.Valid()
    ensures Applied(ObjectRule(urn, name, required), stamp, old(store.Contents()), store.Contents(), changed,
        changedAfter)
  {
    var key := Key(urn, name);
    var current := store.GetAspect(key);
    if Contains(current, required) {
      return changed;
    }
    var updated := MergeRequired(current, required);
    store.EmitAspect(key, updated);
    return changed + [key];
  }

  method EnsureDescription(store: AspectStore, spec: Spec, stamp: Json, changed: seq<Key>)
    returns (changedAfter: seq<Key>)
    requires store.Valid()
    modifies store
    ensures store.Valid()
    ensures Applied(DescriptionRule(spec.sourceUrn, spec.assetDescription), stamp,
                    old(store.Contents()), store.Contents(), changed, changedAfter)
  {
    var key := Key(spec.sourceUrn, EditableDatasetProperties);
    var current := store.GetAspect(key);
    if Get(current, "description") == Str(spec.assetDescription) {
      return changed;
    }
    var fields := current.fields;
    if "created" !in fields {
      fields := fields["created" := stamp];
    }
    fields := fields["lastModified" := stamp];
    fields := fields["description" := Str(spec.assetDescription)];
    store.EmitAspect(key, Obj(fields));
    return changed + [key];
  }

  /** Merge the entry into the first one with its identity, or append it. */
  method EnsureListAspect(store: AspectStore, urn: string, name: AspectName, listKey: string, expected: JsonMap,
                          identityKey: string, stampKey: string, stamp: Json, changed: seq<Key>)
    returns (changedAfter: seq<Key>)
    requires store.Valid()
    requires WellFormed(ListRule(urn, name, listKey, expected, identityKey, stampKey))
    modifies store
    ensures store.Valid()
    ensures Applied(ListRule(urn, name, listKey, expected, identityKey, stampKey), stamp,
                    old(store.Contents()), store.Contents(), changed, changedAfter)
  {
    hide Merge, Contains;
    var key := Key(urn, name);
    var current := store.GetAspect(key);
    var entries := Items(current, listKey);
    ghost var first := FirstWith(entries, identityKey, Get(expected, identityKey));
    var updatedEntries := entries;
    var index := 0;
    while index < |entries| && Get(entries[index], identityKey) != expected.fields[identityKey]
      invariant index <= first
    {
      index := index + 1;
    }
    FirstIsUnique(entries, identityKey, Get(expected, identityKey), index);
    if index < |entries| {
      if Contains(entries[index], expected) {
        return changed;
      }
      var merged := MergeRequired(entries[index], expected);
      updatedEntries := entries[index := merged];
    } else {
      updatedEntries := entries + [expected];
    }
    store.EmitAspect(key, Obj(current.fields[listKey := List(updatedEntries)][stampKey := stamp]));
    return changed + [key];
  }

  method EnsureDocument(store: AspectStore, spec: Spec, stamp: Json, changed: seq<Key>) returns (changedAfter: seq<Key>)
    requires store.Valid()
    modifies store
    ensures store.Valid()
    ensures Applied(DocumentRule(spec.sourceUrn, spec.documentUrl, spec.documentDescription), stamp,
                    old(store.Contents()), store.Contents(), changed, changedAfter)
  {
    hide Contains;
    var key := Key(spec.sourceUrn, InstitutionalMemory);
    var current := store.GetAspect(key);
    var elements := Items(current, "elements");
    ghost var first := FirstWith(elements, "url", Str(spec.documentUrl));
    var updatedElements := elements;
    var index := 0;
    while index < |elements| && Get(elements[index], "url") != Str(spec.documentUrl)
      invariant index <= first
    {
      index := index + 1;
    }
    FirstIsUnique(elements, "url", Str(spec.documentUrl), index);
    if index < |elements| {
      if Contains(elements[index], Resource(spec.documentUrl, spec.documentDescription)) {
        return changed;
      }
      updatedElements :=
          elements[index := UpdatedEntry(elements[index], spec.documentUrl, spec.documentDescription, stamp)];
    } else {
      updatedElements := elements + [UpdatedEntry(Obj(map[]), spec.documentUrl, spec.documentDescription, stamp)];
    }
    store.EmitAspect(key, Obj(current.fields["elements" := List(updatedElements)]));
    return changed + [key];
  }

  method EnsureSubtype(store: AspectStore, urn: string, subtype: string, changed: seq<Key>, ghost stamp: Json)
    returns (changedAfter: seq<Key>)
    requires store.Valid()
    modifies store
    ensures store.Valid()
    ensures Applied(SubtypeRule(urn, subtype), stamp, old(store.Contents()), store.Contents(), changed, changedAfter)
  {
    var key := Key(urn, SubTypes);
    var current := store.GetAspect(key);
    var typeNames := Items(current, "typeNames");
    if Str(subtype) in typeNames {
      return changed;
    }
    store.EmitAspect(key, Obj(current.fields["typeNames" := List(typeNames + [Str(subtype)])]));
    return changed + [key];
  }

  method EnsureDocumentSettings(store: AspectStore, urn: string, stamp: Json, changed: seq<Key>)
    returns (changedAfter: seq<Key>)
    requires store.Valid()
    modifies store
    ensures store.Valid()
    ensures Applied(SettingsRule(urn), stamp, old(store.Contents()), store.Contents(), changed, changedAfter)
  {
    var key := Key(urn, DocumentSettings);
    var current := store.GetAspect(key);
    if Get(current, "showInGlobalContext") == Bool(true) {
      return changed;
    }
    var fields := current.fields["showInGlobalContext" := Bool(true)];
    store.EmitAspect(key, Obj(fields["lastModified" := stamp]));
    return changed + [key];
  }

  method EnsureContextDocumentInfo(store: AspectStore, spec: Spec, stamp: Json, changed: seq<Key>)
    returns (changedAfter: seq<Key>)
    requires store.Valid()
    modifies store
    ensures store.Valid()
    ensures Applied(InfoRule(spec.contextDocumentUrn, spec.contextDocumentTitle, spec.contextDocumentContent,
                             spec.sharedDocumentUrn, spec.sourceUrn), stamp,
                    old(store.Contents()), store.Contents(), changed, changedAfter)
  {
    hide Contains, Expected;
    var key := Key(spec.contextDocumentUrn, DocumentInfo);
    var current := store.GetAspect(key);
    var expected := Expected(spec.contextDocumentTitle, spec.contextDocumentContent, spec.sharedDocumentUrn);
    var relatedAssets := Items(current, "relatedAssets");
    var hasAssetLink := SomeContains(relatedAssets, AssetLink(spec.sourceUrn));
    if Contains(current, expected) && hasAssetLink {
      return changed;
    }
    if !hasAssetLink {
      relatedAssets := relatedAssets + [AssetLink(spec.sourceUrn)];
    }
    var fields := current.fields + expected.fields;
    if "customProperties" !in fields {
      fields := fields["customProperties" := Obj(map[])];
    }
    if "created" !in fields {
      fields := fields["created" := stamp];
    }
    fields := fields["lastModified" := stamp];
    fields := fields["relatedAssets" := List(relatedAssets)];
    store.EmitAspect(key, Obj(fields));
    return changed + [key];
  }

  method EnsureSharedDocumentParent(store: AspectStore, spec: Spec, stamp: Json, changed: seq<Key>)
    returns (changedAfter: seq<Key>)
    requires store.Valid()
    modifies store
    ensures store.Valid()
    ensures store.Contents() == EnsureFolder(old(store.Contents()), spec, stamp)
    ensures changedAfter == changed + FolderWrites(old(store.Contents()), spec, stamp)
  {
    hide FolderInfo, EnsureRule, Writes, AspectOf, ValidCatalog;
    ghost var start := store.Contents();
    var exists_ := store.EntityExists(spec.sharedDocumentUrn);
    if exists_ {
      return changed;
    }
    var key := Key(spec.sharedDocumentUrn, DocumentInfo);
    store.EmitAspect(key, FolderInfo(stamp));
    ghost var created := store.Contents();
    changedAfter := changed + [key];
    changedAfter := EnsureSubtype(store, spec.sharedDocumentUrn, "Folder", changedAfter, stamp);
    changedAfter := EnsureDocumentSettings(store, spec.sharedDocumentUrn, stamp, changedAfter);
    TwoRules(created, SubtypeRule(spec.sharedDocumentUrn, "Folder"), SettingsRule(spec.sharedDocumentUrn), stamp);
  }

  // ---- Rules applied one after the other ----

  lemma {:induction false} ApplyNext(c: Catalog, rules: seq<Rule>, rule: Rule, stamp: Json)
    ensures EnsureAll(c, rules + [rule], stamp) == EnsureRule(EnsureAll(c, rules, stamp), rule, stamp)
    ensures AllWrites(c, rules + [rule], stamp) == AllWrites(c, rules, stamp) + Writes(EnsureAll(c, rules, stamp), rule)
  {
    assert (rules + [rule])[..|rules|] == rules;
  }

  lemma {:induction false} TwoRules(c: Catalog, a: Rule, b: Rule, stamp: Json)
    ensures EnsureAll(c, [a, b], stamp) == EnsureRule(EnsureRule(c, a, stamp), b, stamp)
    ensures AllWrites(c, [a, b], stamp) == Writes(c, a) + Writes(EnsureRule(c, a, stamp), b)
  {
    hide EnsureRule, Writes;
    assert [] + [a] == [a] && [a] + [b] == [a, b];
    ApplyNext(c, [], a, stamp);
    ApplyNext(c, [a], b, stamp);
  }

  /** What is required of the term, the owner and the source dataset, in the order it is ensured. */
  method EnsureAssets(store: AspectStore, spec: Spec, stamp: Json) returns (changed: seq<Key>)
    requires store.Valid()
    modifies store
    ensures store.Valid()
    ensures store.Contents() == EnsureAll(old(store.Contents()), AssetRules(spec), stamp)
    ensures changed == AllWrites(old(store.Contents()), AssetRules(spec), stamp)
  {
    hide EnsureRule, Writes, ValidCatalog, TermInfo, UserInfo, EnsureAll, AllWrites, WellFormed, OwnersRule, TermsRule;
    ghost var start := store.Contents();
    ghost var rules := AssetRules(spec);
    NoRules(start, stamp);
    changed := [];
    changed := EnsureObjectAspect(store, spec.termUrn, GlossaryTermInfo, TermInfo(spec), changed, stamp);
    ApplyNext(start, [], rules[0], stamp);
    assert rules[..0] + [rules[0]] == rules[..1];
    changed := EnsureObjectAspect(store, spec.ownerUrn, CorpUserInfo, UserInfo(), changed, stamp);
    ApplyNext(start, rules[..1], rules[1], stamp);
    assert rules[..1] + [rules[1]] == rules[..2];
    changed := EnsureDescription(store, spec, stamp, changed);
    ApplyNext(start, rules[..2], rules[2], stamp);
    assert rules[..2] + [rules[2]] == rules[..3];
    changed := EnsureOwner(store, spec, spec.sourceUrn, stamp, changed);
    ApplyNext(start, rules[..3], rules[3], stamp);
    assert rules[..3] + [rules[3]] == rules[..4];
    changed := EnsureTermAttachment(store, spec, spec.sourceUrn, stamp, changed);
    ApplyNext(start, rules[..4], rules[4], stamp);
    assert rules[..4] + [rules[4]] == rules[..5];
    changed := EnsureDocument(store, spec, stamp, changed);
    ApplyNext(start, rules[..5], rules[5], stamp);
    assert rules[..5] + [rules[5]] == rules;
  }

  method EnsureOwner(store: AspectStore, spec: Spec, urn: string, stamp: Json, changed: seq<Key>)
    returns (changedAfter: seq<Key>)
    requires store.Valid()
    modifies store
    ensures store.Valid()
    ensures Applied(OwnersRule(spec, urn), stamp, old(store.Contents()), store.Contents(), changed, changedAfter)
  {
    hide EnsureRule, Writes, ValidCatalog;
    EntriesAreNamed(spec);
    changedAfter :=
        EnsureListAspect(store, urn, Ownership, "owners", OwnerEntry(spec), "owner", "lastModified", stamp, changed);
  }

  method EnsureTermAttachment(store: AspectStore, spec: Spec, urn: string, stamp: Json, changed: seq<Key>)
    returns (changedAfter: seq<Key>)
    requires store.Valid()
    modifies store
    ensures store.Valid()
    ensures Applied(TermsRule(spec, urn), stamp, old(store.Contents()), store.Contents(), changed, changedAfter)
  {
    hide EnsureRule, Writes, ValidCatalog;
    EntriesAreNamed(spec);
    changedAfter :=
        EnsureListAspect(store, urn, GlossaryTerms, "terms", TermEntry(spec), "urn", "auditStamp", stamp, changed);
  }

  lemma {:induction false} EntriesAreNamed(spec: Spec)
    ensures "owner" in OwnerEntry(spec).fields && OwnerEntry(spec).fields["owner"].Str?
    ensures "urn" in TermEntry(spec).fields && TermEntry(spec).fields["urn"].Str?
  {
  }

  lemma {:induction false} NoRules(c: Catalog, stamp: Json)
    ensures EnsureAll(c, [], stamp) == c && AllWrites(c, [], stamp) == []
  {
  }

  /** What is required of the context document, in the order it is ensured. */
  method EnsureContextDocument(store: AspectStore, spec: Spec, stamp: Json, changed: seq<Key>)
    returns (changedAfter: seq<Key>)
    requires store.Valid()
    modifies store
    ensures store.Valid()
    ensures store.Contents() == EnsureAll(old(store.Contents()), DocumentRules(spec), stamp)
    ensures changedAfter == changed + AllWrites(old(store.Contents()), DocumentRules(spec), stamp)
  {
    hide EnsureRule, Writes, ValidCatalog, EnsureAll, AllWrites, WellFormed, OwnersRule, TermsRule;
    ghost var start := store.Contents();
    ghost var rules := DocumentRules(spec);
    NoRules(start, stamp);
    changedAfter := EnsureContextDocumentInfo(store, spec, stamp, changed);
    ApplyNext(start, [], rules[0], stamp);
    assert rules[..0] + [rules[0]] == rules[..1];
    changedAfter := EnsureSubtype(store, spec.contextDocumentUrn, "Context", changedAfter, stamp);
    ApplyNext(start, rules[..1], rules[1], stamp);
    assert rules[..1] + [rules[1]] == rules[..2];
    changedAfter := EnsureDocumentSettings(store, spec.contextDocumentUrn, stamp, changedAfter);
    ApplyNext(start, rules[..2], rules[2], stamp);
    assert rules[..2] + [rules[2]] == rules[..3];
    changedAfter := EnsureOwner(store, spec, spec.contextDocumentUrn, stamp, changedAfter);
    ApplyNext(start, rules[..3], rules[3], stamp);
    assert rules[..3] + [rules[3]] == rules[..4];
    changedAfter := EnsureTermAttachment(store, spec, spec.contextDocumentUrn, stamp, changedAfter);
    ApplyNext(start, rules[..4], rules[4], stamp);
    assert rules[..4] + [rules[4]] == rules;
  }

  // ---- Verification, and the whole seed ----

  method RequireFields(store: AspectStore, key: Key, expected: Json, what: string, errors: seq<string>)
    returns (errorsAfter: seq<string>)
    ensures errorsAfter == errors + if FieldsThere(store.Contents(), key, expected) then [] else [what]
  {
    if FieldsThere(store.Contents(), key, expected) {
      return errors;
    }
    return errors + [what];
  }

  method RequireListEntry(store: AspectStore, key: Key, listKey: string, expected: Json, what: string,
        errors: seq<string>)
    returns (errorsAfter: seq<string>)
    ensures errorsAfter == errors + if EntryThere(store.Contents(), key, listKey, expected) then [] else [what]
  {
    if EntryThere(store.Contents(), key, listKey, expected) {
      return errors;
    }
    return errors + [what];
  }

  method CheckDbtLineage(store: AspectStore, spec: Spec, errors: seq<string>) returns (errorsAfter: seq<string>)
    ensures errors <= errorsAfter
    ensures errorsAfter == errors <==> LineageThere(store.Contents(), spec)
  {
    hide EntryThere;
    var checks := Lineage(spec);
    errorsAfter := errors;
    for i := 0 to 4
      invariant errors <= errorsAfter
      invariant errorsAfter == errors <==>
        forall j :: 0 <= j < i ==>
            EntryThere(store.Contents(), Key(checks[j].0, UpstreamLineage), "upstreams", checks[j].1)
    {
      errorsAfter :=
          RequireListEntry(store, Key(checks[i].0, UpstreamLineage), "upstreams", checks[i].1, "lineage", errorsAfter);
    }
  }

  method CheckDatasets(store: AspectStore, spec: Spec, errors: seq<string>) returns (errorsAfter: seq<string>)
    ensures errors <= errorsAfter
    ensures errorsAfter == errors <==> DatasetsThere(store.Contents(), spec)
  {
    var urns := Datasets(spec);
    errorsAfter := errors;
    for i := 0 to 5
      invariant errors <= errorsAfter
      invariant errorsAfter == errors <==> forall j :: 0 <= j < i ==> urns[j] in store.entities
    {
      var found := store.EntityExists(urns[i]);
      if !found {
        errorsAfter := errorsAfter + ["missing ingested dataset"];
      }
    }
  }

  method CheckAssets(store: AspectStore, spec: Spec, errors: seq<string>) returns (errorsAfter: seq<string>)
    ensures errors <= errorsAfter
    ensures errorsAfter == errors <==> AssetChecks(store.Contents(), spec)
  {
    hide FieldsThere, EntryThere, TermCheck, UserCheck, OwnerEntry, TermEntry, Resource;
    errorsAfter := errors;
    errorsAfter :=
        RequireFields(store, Key(spec.termUrn, GlossaryTermInfo), TermCheck(spec), "glossary definition", errorsAfter);
    errorsAfter := RequireFields(store, Key(spec.ownerUrn, CorpUserInfo), UserCheck(), "owner", errorsAfter);
    errorsAfter := RequireFields(store, Key(spec.sourceUrn, EditableDatasetProperties),
                                 Obj(map["description" := Str(spec.assetDescription)]), "description", errorsAfter);
    errorsAfter := RequireListEntry(store, Key(spec.sourceUrn, Ownership), "owners", OwnerEntry(spec),
        "owner attachment", errorsAfter);
    errorsAfter := RequireListEntry(store, Key(spec.sourceUrn, GlossaryTerms), "terms", TermEntry(spec),
        "term attachment", errorsAfter);
    errorsAfter := RequireListEntry(store, Key(spec.sourceUrn, InstitutionalMemory), "elements",
                                    Resource(spec.documentUrl, spec.documentDescription), "documentation", errorsAfter);
  }

  method CheckRelatedDocument(store: AspectStore, spec: Spec, related: Answer<seq<Json>>, errors: seq<string>)
    returns (errorsAfter: seq<string>)
    ensures errors <= errorsAfter
    ensures errorsAfter == errors <==> DocumentChecks(store.Contents(), spec) && Shown(related, spec)
  {
    hide FieldsThere, EntryThere, TextThere, OwnerEntry, TermEntry, Expected, AssetLink, Shown;
    errorsAfter := CheckDocumentInfo(store, spec, errors);
    errorsAfter := CheckDocumentAspects(store, spec, errorsAfter);
    if !Shown(related, spec) {
      errorsAfter := errorsAfter + ["dataset does not expose the context document"];
    }
  }

  method CheckDocumentInfo(store: AspectStore, spec: Spec, errors: seq<string>) returns (errorsAfter: seq<string>)
    ensures errors <= errorsAfter
    ensures errorsAfter == errors <==> DocumentInfoChecks(store.Contents(), spec)
  {
    hide FieldsThere, EntryThere, Expected, AssetLink;
    var urn := spec.contextDocumentUrn;
    errorsAfter := errors;
    var folder := store.EntityExists(spec.sharedDocumentUrn);
    if !folder {
      errorsAfter := errorsAfter + ["shared document parent is missing"];
    }
    var document := store.EntityExists(urn);
    if !document {
      errorsAfter := errorsAfter + ["context document is missing"];
    }
    errorsAfter := RequireFields(store, Key(urn, DocumentInfo),
      Expected(spec.contextDocumentTitle, spec.contextDocumentContent, spec.sharedDocumentUrn), "context document",
          errorsAfter);
    errorsAfter := RequireListEntry(store, Key(urn, DocumentInfo), "relatedAssets", AssetLink(spec.sourceUrn),
        "relationship", errorsAfter);
  }

  method CheckDocumentAspects(store: AspectStore, spec: Spec, errors: seq<string>) returns (errorsAfter: seq<string>)
    ensures errors <= errorsAfter
    ensures errorsAfter == errors <==> DocumentAspectChecks(store.Contents(), spec)
  {
    hide FieldsThere, EntryThere, TextThere, OwnerEntry, TermEntry;
    var urn := spec.contextDocumentUrn;
    errorsAfter := RequireFields(store, Key(urn, DocumentSettings), Obj(map["showInGlobalContext" := Bool(true)]),
        "visibility", errors);
    if !TextThere(store.Contents(), Key(urn, SubTypes), "typeNames", "Context") {
      errorsAfter := errorsAfter + ["subtype"];
    }
    errorsAfter :=
        RequireListEntry(store, Key(urn, Ownership), "owners", OwnerEntry(spec), "document owner", errorsAfter);
    errorsAfter :=
        RequireListEntry(store, Key(urn, GlossaryTerms), "terms", TermEntry(spec), "document term", errorsAfter);
  }

  /** Nothing is wrong exactly when every check holds. */
  method VerifyContext(store: AspectStore, spec: Spec, related: Answer<seq<Json>>) returns (errors: seq<string>)
    ensures errors == [] <==>
      && DatasetsThere(store.Contents(), spec) && AssetChecks(store.Contents(), spec)
      && DocumentChecks(store.Contents(), spec) && Shown(related, spec) && LineageThere(store.Contents(), spec)
    ensures store.Valid() ==>
      (errors == [] <==>
       && SeedMeaning.Ingested(store.Contents(), spec) && SeedMeaning.AssetsVerified(store.Contents(), spec)
       && SeedMeaning.DocumentVerified(store.Contents(), spec) && SeedMeaning.Exposed(related, spec))
  {
    hide DatasetsThere, AssetChecks, DocumentChecks, Shown, LineageThere, SeedMeaning.Ingested,
      SeedMeaning.AssetsVerified, SeedMeaning.DocumentVerified, SeedMeaning.Exposed, ValidCatalog;
    SeedMeaning.IngestedMeans(store.Contents(), spec);
    SeedMeaning.ShownMeans(related, spec);
    if store.Valid() {
      SeedMeaning.AssetChecksMean(store.Contents(), spec);
      SeedMeaning.DocumentChecksMean(store.Contents(), spec);
    }
    errors := CheckDatasets(store, spec, []);
    errors := CheckAssets(store, spec, errors);
    errors := CheckRelatedDocument(store, spec, related, errors);
    errors := CheckDbtLineage(store, spec, errors);
  }

  /** Upsert the semantic context: it refuses a catalog without the datasets and their lineage,
      otherwise seeds it, and then succeeds exactly when the search shows the document. */
  method SeedCatalog(store: AspectStore, spec: Spec, stamp: Json, reachable: bool, related: Answer<seq<Json>>)
    returns (answer: Answer<seq<Key>>)
    requires store.Valid()
    modifies store
    ensures store.Valid()
    ensures var before := old(store.Contents());
      if !reachable || !DatasetsThere(before, spec) || !LineageThere(before, spec) then
        answer == Raise && store.Contents() == before
      else
        && store.Contents() == Seeded(before, spec, stamp)
        && answer == if Shown(related, spec) then Reply(SeedWrites(before, spec, stamp)) else Raise
    ensures var before := old(store.Contents());
      if !reachable || !SeedMeaning.Ingested(before, spec) then answer == Raise && store.Contents() == before
      else
        && SeedMeaning.Holds(store.Contents(), spec)
        && (answer.Reply? <==> SeedMeaning.Exposed(related, spec))
        && (answer.Reply? ==> (answer.value == [] <==> SeedMeaning.Holds(before, spec)))
        && (SeedMeaning.Holds(before, spec) ==> store.Contents() == before)
        && (SeedMeaning.FolderApart(spec) && spec.sharedDocumentUrn !in before.entities ==>
            SeedMeaning.FolderHolds(store.Contents(), spec, stamp))
  {
    hide DatasetsThere, AssetChecks, DocumentChecks, Shown, LineageThere, ValidCatalog, EnsureAll, EnsureFolder,
      AllWrites, FolderWrites, SeedMeaning.Ingested, SeedMeaning.Holds, SeedMeaning.Exposed,
      SeedMeaning.FolderApart, SeedMeaning.FolderHolds, SeedMeaning.AssetsVerified, SeedMeaning.DocumentVerified;
    ghost var before := store.Contents();
    SeedMeaning.IngestedMeans(before, spec);
    SeedMeaning.ShownMeans(related, spec);
    SeedMeaning.SeedHolds(before, spec, stamp);
    if SeedMeaning.FolderApart(spec) {
      SeedMeaning.SeedMakesFolder(before, spec, stamp);
    }
    if !reachable {
      return Raise;
    }
    var missing := CheckDatasets(store, spec, []);
    if missing != [] {
      return Raise;
    }
    var lineageErrors := CheckDbtLineage(store, spec, []);
    if lineageErrors != [] {
      return Raise;
    }
    var changed := EnsureAssets(store, spec, stamp);
    changed := EnsureSharedDocumentParent(store, spec, stamp, changed);
    changed := EnsureContextDocument(store, spec, stamp, changed);
    SeedIsValid(before, spec, stamp);
    SeedVerifies(before, spec, stamp);
    var errors := VerifyContext(store, spec, related);
    if errors != [] {
      return Raise;
    }
    return Reply(changed);
  }
}
