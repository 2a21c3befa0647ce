/** The seeded catalog in plain terms: which fields hold which values, when nothing needs to be
    written, and what an update makes of an aspect field by field. */
module SeedMeaning {
  import opened Model
  import opened Metadata
  import opened SeedRules
  import opened SeedContext

  // ---- What the catalog must hold ----

  function Field(c: Catalog, urn: string, name: AspectName, key: string): Json {
    Get(Current(c, Key(urn, name)), key)
  }

  function Entries(c: Catalog, urn: string, name: AspectName, key: string): seq<Json> {
    var field := Field(c, urn, name, key);
    if field.List? then field.items else []
  }

  /** The first entry with the identity has the other field too. */
  ghost predicate FirstHas(entries: seq<Json>, idKey: string, id: string, key: string, text: string) {
    exists i :: 0 <= i < |entries| && Get(entries[i], idKey) == Str(id) && Get(entries[i], key) == Str(text)
                && forall j :: 0 <= j < i ==> Get(entries[j], idKey) != Str(id)
  }

  ghost predicate TermHolds(c: Catalog, spec: Spec) {
    var urn := spec.termUrn;
    && Field(c, urn, GlossaryTermInfo, "definition") == Str(spec.termDefinition)
    && Field(c, urn, GlossaryTermInfo, "termSource") == Str("INTERNAL")
    && Field(c, urn, GlossaryTermInfo, "name") == Str("NetRevenue")
    && Get(Field(c, urn, GlossaryTermInfo, "customProperties"), "managedBy") == Str("DataRescue")
  }

  ghost predicate UserHolds(c: Catalog, spec: Spec) {
    var urn := spec.ownerUrn;
    && Field(c, urn, CorpUserInfo, "active") == Bool(true)
    && Field(c, urn, CorpUserInfo, "displayName") == Str("Finance Data")
    && Field(c, urn, CorpUserInfo, "title") == Str("Finance Data Owner")
    && Field(c, urn, CorpUserInfo, "email") == Str("finance-data@example.invalid")
    && Field(c, urn, CorpUserInfo, "system") == Bool(false)
  }

  /** The owner and the glossary term are attached to the entity. */
  ghost predicate AttachmentsHold(c: Catalog, spec: Spec, urn: string) {
    && FirstHas(Entries(c, urn, Ownership, "owners"), "owner", spec.ownerUrn, "type", "DATAOWNER")
    && FirstHas(Entries(c, urn, GlossaryTerms, "terms"), "urn", spec.termUrn, "actor", spec.ownerUrn)
  }

  ghost predicate SourceHolds(c: Catalog, spec: Spec) {
    var urn := spec.sourceUrn;
    && Field(c, urn, EditableDatasetProperties, "description") == Str(spec.assetDescription)
    && AttachmentsHold(c, spec, urn)
    && FirstHas(Entries(c, urn, InstitutionalMemory, "elements"), "url", spec.documentUrl,
                "description", spec.documentDescription)
  }

  ghost predicate DocumentHolds(c: Catalog, spec: Spec) {
    var urn := spec.contextDocumentUrn;
    && Field(c, urn, DocumentInfo, "title") == Str(spec.contextDocumentTitle)
    && Get(Field(c, urn, DocumentInfo, "source"), "sourceType") == Str("NATIVE")
    && Get(Field(c, urn, DocumentInfo, "status"), "state") == Str("PUBLISHED")
    && Get(Field(c, urn, DocumentInfo, "contents"), "text") == Str(spec.contextDocumentContent)
    && Get(Field(c, urn, DocumentInfo, "parentDocument"), "document") == Str(spec.sharedDocumentUrn)
    && (exists i :: 0 <= i < |Entries(c, urn, DocumentInfo, "relatedAssets")|
          && Get(Entries(c, urn, DocumentInfo, "relatedAssets")[i], "asset") == Str(spec.sourceUrn))
    && Str("Context") in Entries(c, urn, SubTypes, "typeNames")
    && Field(c, urn, DocumentSettings, "showInGlobalContext") == Bool(true)
    && AttachmentsHold(c, spec, urn)
  }

  ghost predicate Holds(c: Catalog, spec: Spec) {
    && TermHolds(c, spec) && UserHolds(c, spec) && SourceHolds(c, spec) && DocumentHolds(c, spec)
    && spec.sharedDocumentUrn in c.entities
  }

  // ---- Each rule in these terms ----

  lemma {:induction false} TermMeans(c: Catalog, spec: Spec)
    ensures Satisfied(ObjectRule(spec.termUrn, GlossaryTermInfo, TermInfo(spec)),
                      Current(c, Key(spec.termUrn, GlossaryTermInfo)))
            <==> TermHolds(c, spec)
  {
    var expected := TermInfo(spec);
    assert expected.fields.Keys == {"definition", "termSource", "name", "customProperties"};
    NestedMeans(Field(c, spec.termUrn, GlossaryTermInfo, "customProperties"), "managedBy", Str("DataRescue"));
    hide Current;
  }

  /** A map with one plain field is contained where that field has its value. */
  lemma {:induction false} NestedMeans(actual: Json, key: string, value: Json)
    requires value != Null && !value.Obj?
    ensures Contains(actual, Obj(map[key := value])) <==> Get(actual, key) == value
  {
    assert Obj(map[key := value]).fields.Keys == {key};
  }

  lemma {:induction false} UserMeans(c: Catalog, spec: Spec)
    ensures Satisfied(ObjectRule(spec.ownerUrn, CorpUserInfo, UserInfo()), Current(c, Key(spec.ownerUrn, CorpUserInfo)))
            <==> UserHolds(c, spec)
  {
    var expected := UserInfo();
    assert expected.fields.Keys == {"active", "displayName", "title", "email", "system"};
    hide Current;
  }

  /** A map with two text fields. */
  lemma {:induction false} PairMeans(actual: Json, key: string, text: string, other: string, more: string)
    requires key != other
    ensures Contains(actual, Obj(map[key := Str(text), other := Str(more)])) <==>
            Get(actual, key) == Str(text) && Get(actual, other) == Str(more)
  {
    assert Obj(map[key := Str(text), other := Str(more)]).fields.Keys == {key, other};
  }

  /** A list rule looks at the first entry with its identity. */
  lemma {:induction false} FirstMeans(entries: seq<Json>, idKey: string, id: string, key: string, text: string)
    requires idKey != key
    ensures var i := FirstWith(entries, idKey, Str(id));
            i < |entries| && Contains(entries[i], Obj(map[idKey := Str(id), key := Str(text)]))
            <==> FirstHas(entries, idKey, id, key, text)
  {
    hide Contains;
    var i := FirstWith(entries, idKey, Str(id));
    if i < |entries| {
      PairMeans(entries[i], idKey, id, key, text);
    }
    if FirstHas(entries, idKey, id, key, text) {
      var k :| 0 <= k < |entries| && Get(entries[k], idKey) == Str(id) && Get(entries[k], key) == Str(text)
               && forall j :: 0 <= j < k ==> Get(entries[j], idKey) != Str(id);
      FirstIsUnique(entries, idKey, Str(id), k);
    }
  }

  lemma {:induction false} OwnersMean(c: Catalog, spec: Spec, urn: string)
    ensures Satisfied(OwnersRule(spec, urn), Current(c, Key(urn, Ownership))) <==>
            FirstHas(Entries(c, urn, Ownership, "owners"), "owner", spec.ownerUrn, "type", "DATAOWNER")
  {
    FirstMeans(Entries(c, urn, Ownership, "owners"), "owner", spec.ownerUrn, "type", "DATAOWNER");
    hide Contains, FirstHas, FirstWith, Current;
  }

  lemma {:induction false} TermsMean(c: Catalog, spec: Spec, urn: string)
    ensures Satisfied(TermsRule(spec, urn), Current(c, Key(urn, GlossaryTerms))) <==>
            FirstHas(Entries(c, urn, GlossaryTerms, "terms"), "urn", spec.termUrn, "actor", spec.ownerUrn)
  {
    FirstMeans(Entries(c, urn, GlossaryTerms, "terms"), "urn", spec.termUrn, "actor", spec.ownerUrn);
    hide Contains, FirstHas, FirstWith, Current;
  }

  lemma {:induction false} ResourceMeans(c: Catalog, spec: Spec)
    ensures Satisfied(DocumentRule(spec.sourceUrn, spec.documentUrl, spec.documentDescription),
                      Current(c, Key(spec.sourceUrn, InstitutionalMemory)))
            <==> FirstHas(Entries(c, spec.sourceUrn, InstitutionalMemory, "elements"), "url", spec.documentUrl,
                          "description", spec.documentDescription)
  {
    FirstMeans(Entries(c, spec.sourceUrn, InstitutionalMemory, "elements"), "url", spec.documentUrl,
      "description", spec.documentDescription);
    hide Contains, FirstHas, FirstWith, Current;
  }

  ghost predicate InfoHolds(c: Catalog, spec: Spec) {
    var urn := spec.contextDocumentUrn;
    && Field(c, urn, DocumentInfo, "title") == Str(spec.contextDocumentTitle)
    && Get(Field(c, urn, DocumentInfo, "source"), "sourceType") == Str("NATIVE")
    && Get(Field(c, urn, DocumentInfo, "status"), "state") == Str("PUBLISHED")
    && Get(Field(c, urn, DocumentInfo, "contents"), "text") == Str(spec.contextDocumentContent)
    && Get(Field(c, urn, DocumentInfo, "parentDocument"), "document") == Str(spec.sharedDocumentUrn)
  }

  lemma {:induction false} InfoMeans(c: Catalog, spec: Spec)
    ensures Contains(Current(c, Key(spec.contextDocumentUrn, DocumentInfo)),
                     Expected(spec.contextDocumentTitle, spec.contextDocumentContent, spec.sharedDocumentUrn))
            <==> InfoHolds(c, spec)
  {
    hide Contains, Current, Expected;
    ExpectedMeans(Current(c, Key(spec.contextDocumentUrn, DocumentInfo)), spec.contextDocumentTitle,
      spec.contextDocumentContent, spec.sharedDocumentUrn);
  }

  lemma {:induction false} ExpectedMeans(actual: Json, title: string, content: string, parentUrn: string)
    requires actual.Obj?
    ensures Contains(actual, Expected(title, content, parentUrn)) <==>
            && Get(actual, "title") == Str(title)
            && Get(Get(actual, "source"), "sourceType") == Str("NATIVE")
            && Get(Get(actual, "status"), "state") == Str("PUBLISHED")
            && Get(Get(actual, "contents"), "text") == Str(content)
            && Get(Get(actual, "parentDocument"), "document") == Str(parentUrn)
  {
    hide Contains;
    NestedMeans(Get(actual, "source"), "sourceType", Str("NATIVE"));
    NestedMeans(Get(actual, "status"), "state", Str("PUBLISHED"));
    NestedMeans(Get(actual, "contents"), "text", Str(content));
    NestedMeans(Get(actual, "parentDocument"), "document", Str(parentUrn));
    var expected := Expected(title, content, parentUrn);
    ContainsMeans(actual, expected);
    ExpectedFields(title, content, parentUrn);
    hide Expected, Get;
    assert Contains(actual, expected) <==>
           && KeyHolds(actual, expected, "title") && KeyHolds(actual, expected, "source")
           && KeyHolds(actual, expected, "status") && KeyHolds(actual, expected, "contents")
           && KeyHolds(actual, expected, "parentDocument");
  }

  lemma {:induction false} ExpectedFields(title: string, content: string, parentUrn: string)
    ensures var fields := Expected(title, content, parentUrn).fields;
            && fields.Keys == {"title", "source", "status", "contents", "parentDocument"}
            && fields["title"] == Str(title)
            && fields["source"] == Obj(map["sourceType" := Str("NATIVE")])
            && fields["status"] == Obj(map["state" := Str("PUBLISHED")])
            && fields["contents"] == Obj(map["text" := Str(content)])
            && fields["parentDocument"] == Obj(map["document" := Str(parentUrn)])
  {
  }

  ghost predicate KeyHolds(actual: Json, expected: JsonMap, key: string)
    requires key in expected.fields
  {
    var e := expected.fields[key];
    if e.Obj? then Contains(Get(actual, key), e) else Get(actual, key) == e
  }

  lemma {:induction false} ContainsMeans(actual: Json, expected: JsonMap)
    requires actual.Obj?
    ensures Contains(actual, expected) <==> forall key :: key in expected.fields ==> KeyHolds(actual, expected, key)
  {
  }

  lemma {:induction false} LinkMeans(items: seq<Json>, urn: string)
    ensures SomeContains(items, AssetLink(urn)) <==>
            exists i :: 0 <= i < |items| && Get(items[i], "asset") == Str(urn)
  {
    forall i | 0 <= i < |items| ensures Contains(items[i], AssetLink(urn)) <==> Get(items[i], "asset") == Str(urn) {
      NestedMeans(items[i], "asset", Str(urn));
    }
    hide Contains;
  }

  lemma {:induction false} DocumentMeans(c: Catalog, spec: Spec)
    ensures AllSatisfied(c, DocumentRules(spec)) <==> DocumentHolds(c, spec)
  {
    var urn := spec.contextDocumentUrn;
    DocumentRulesAt(c, spec);
    InfoMeans(c, spec);
    LinkMeans(Entries(c, urn, DocumentInfo, "relatedAssets"), spec.sourceUrn);
    OwnersMean(c, spec, urn);
    TermsMean(c, spec, urn);
    hide Contains, FirstHas, FirstWith, Current, AllSatisfied, DocumentRules, OwnersRule, TermsRule, Expected,
      AssetLink, SomeContains;
  }

  lemma {:induction false} DocumentRulesAt(c: Catalog, spec: Spec)
    ensures var urn := spec.contextDocumentUrn;
            AllSatisfied(c, DocumentRules(spec)) <==>
              && Satisfied(InfoRule(urn, spec.contextDocumentTitle, spec.contextDocumentContent,
                             spec.sharedDocumentUrn, spec.sourceUrn), Current(c, Key(urn, DocumentInfo)))
              && Satisfied(SubtypeRule(urn, "Context"), Current(c, Key(urn, SubTypes)))
              && Satisfied(SettingsRule(urn), Current(c, Key(urn, DocumentSettings)))
              && Satisfied(OwnersRule(spec, urn), Current(c, Key(urn, Ownership)))
              && Satisfied(TermsRule(spec, urn), Current(c, Key(urn, GlossaryTerms)))
  {
    hide Satisfied, Current, OwnerEntry, TermEntry;
    var rules := DocumentRules(spec);
    assert |rules| == 5;
    assert AllSatisfied(c, rules) <==>
           && Satisfied(rules[0], Current(c, AspectOf(rules[0]))) && Satisfied(rules[1], Current(c, AspectOf(rules[1])))
           && Satisfied(rules[2], Current(c, AspectOf(rules[2]))) && Satisfied(rules[3], Current(c, AspectOf(rules[3])))
           && Satisfied(rules[4], Current(c, AspectOf(rules[4])));
  }

  lemma {:induction false} AssetRulesHold(c: Catalog, spec: Spec)
    ensures AllSatisfied(c, AssetRules(spec)) <==>
            TermHolds(c, spec) && UserHolds(c, spec) && SourceHolds(c, spec)
  {
    AssetRulesMean(c, spec);
    TermMeans(c, spec);
    UserMeans(c, spec);
    OwnersMean(c, spec, spec.sourceUrn);
    TermsMean(c, spec, spec.sourceUrn);
    ResourceMeans(c, spec);
    hide Contains, FirstHas, FirstWith, Current, AllSatisfied, AssetRules, OwnersRule, TermsRule, TermHolds, UserHolds,
      TermInfo, UserInfo;
  }

  lemma {:induction false} AssetRulesMean(c: Catalog, spec: Spec)
    ensures var urn := spec.sourceUrn;
            AllSatisfied(c, AssetRules(spec)) <==>
              && Satisfied(ObjectRule(spec.termUrn, GlossaryTermInfo, TermInfo(spec)),
                           Current(c, Key(spec.termUrn, GlossaryTermInfo)))
              && Satisfied(ObjectRule(spec.ownerUrn, CorpUserInfo, UserInfo()),
                           Current(c, Key(spec.ownerUrn, CorpUserInfo)))
              && Satisfied(DescriptionRule(urn, spec.assetDescription), Current(c, Key(urn, EditableDatasetProperties)))
              && Satisfied(OwnersRule(spec, urn), Current(c, Key(urn, Ownership)))
              && Satisfied(TermsRule(spec, urn), Current(c, Key(urn, GlossaryTerms)))
              && Satisfied(DocumentRule(urn, spec.documentUrl, spec.documentDescription),
                           Current(c, Key(urn, InstitutionalMemory)))
  {
    hide Satisfied, Current, OwnerEntry, TermEntry, TermInfo, UserInfo;
    var rules := AssetRules(spec);
    assert |rules| == 6;
    assert AllSatisfied(c, rules) <==>
           && Satisfied(rules[0], Current(c, AspectOf(rules[0]))) && Satisfied(rules[1], Current(c, AspectOf(rules[1])))
           && Satisfied(rules[2], Current(c, AspectOf(rules[2]))) && Satisfied(rules[3], Current(c, AspectOf(rules[3])))
           && Satisfied(rules[4], Current(c, AspectOf(rules[4])))
           && Satisfied(rules[5], Current(c, AspectOf(rules[5])));
  }

  /** A catalog needs nothing exactly when it holds all of this. */
  lemma {:induction false} NeedsNothingMeans(c: Catalog, spec: Spec)
    ensures NeedsNothing(c, spec) <==> Holds(c, spec)
  {
    hide AllSatisfied, AssetRules, DocumentRules, TermHolds, UserHolds, SourceHolds, DocumentHolds;
    AssetRulesHold(c, spec);
    DocumentMeans(c, spec);
  }

  /** So after a seed the catalog holds it, and one that holds it is neither changed nor written to. */
  lemma {:induction false} SeedHolds(c: Catalog, spec: Spec, stamp: Json)
    ensures Holds(Seeded(c, spec, stamp), spec)
    ensures Holds(c, spec) <==> SeedWrites(c, spec, stamp) == []
    ensures Holds(c, spec) ==> Seeded(c, spec, stamp) == c
  {
    hide NeedsNothing, Seeded, SeedWrites, Holds;
    NeedsNothingMeans(c, spec);
    NeedsNothingMeans(Seeded(c, spec, stamp), spec);
    SeedSatisfies(c, spec, stamp);
    if NeedsNothing(c, spec) {
      SeedIsIdle(c, spec, stamp);
    }
    if SeedWrites(c, spec, stamp) == [] {
      SilentSeed(c, spec, stamp);
    }
  }

  /** A seed that writes nothing leaves the catalog as it was. */
  lemma {:induction false} SilentSeed(c: Catalog, spec: Spec, stamp: Json)
    requires SeedWrites(c, spec, stamp) == []
    ensures Seeded(c, spec, stamp) == c
  {
    hide AssetRules, DocumentRules, FolderRules, AllWrites, EnsureAll;
    var assets := EnsureAll(c, AssetRules(spec), stamp);
    SilentRules(c, AssetRules(spec), stamp);
    SilentRules(EnsureFolder(assets, spec, stamp), DocumentRules(spec), stamp);
  }

  lemma {:induction false} SilentRules(c: Catalog, rules: seq<Rule>, stamp: Json)
    requires AllWrites(c, rules, stamp) == []
    ensures EnsureAll(c, rules, stamp) == c
  {
    hide Satisfied, Updated, AspectOf, Current;
    if rules != [] {
      SilentRules(c, rules[..|rules| - 1], stamp);
    }
  }

  // ---- The shared folder ----

  /** The folder is none of the entities that have rules of their own. */
  ghost predicate FolderApart(spec: Spec) {
    spec.sharedDocumentUrn !in {spec.termUrn, spec.ownerUrn, spec.sourceUrn, spec.contextDocumentUrn}
  }

  /** The folder as the seeder makes it: a published native document titled Shared, a Folder by
      type, shown in the global context. */
  ghost predicate FolderHolds(c: Catalog, spec: Spec, stamp: Json) {
    var urn := spec.sharedDocumentUrn;
    && FolderText(Current(c, Key(urn, DocumentInfo)), stamp)
    && Str("Folder") in Entries(c, urn, SubTypes, "typeNames")
    && Field(c, urn, DocumentSettings, "showInGlobalContext") == Bool(true)
  }

  ghost predicate FolderText(info: Json, stamp: Json) {
    && Get(info, "title") == Str("Shared")
    && Get(Get(info, "source"), "sourceType") == Str("NATIVE")
    && Get(Get(info, "status"), "state") == Str("PUBLISHED")
    && Get(Get(info, "contents"), "text") == Str("Contains shared documents authored through DataHub agents.")
    && Get(info, "created") == stamp
    && Get(info, "lastModified") == stamp
  }

  ghost predicate NoneOf(rules: seq<Rule>, urn: string) {
    forall rule :: rule in rules ==> AspectOf(rule).urn != urn
  }

  /** Rules about other entities neither make nor touch this one. */
  lemma {:induction false} OthersLeaveAlone(c: Catalog, rules: seq<Rule>, stamp: Json, urn: string)
    requires NoneOf(rules, urn)
    ensures var after := EnsureAll(c, rules, stamp);
            && (urn in after.entities <==> urn in c.entities)
            && forall name :: Current(after, Key(urn, name)) == Current(c, Key(urn, name))
  {
    hide Satisfied, Updated, AspectOf;
    if rules != [] {
      assert rules[|rules| - 1] in rules;
      assert NoneOf(rules[..|rules| - 1], urn);
      OthersLeaveAlone(c, rules[..|rules| - 1], stamp, urn);
    }
  }

  lemma {:induction false} RulesAreElsewhere(spec: Spec)
    requires FolderApart(spec)
    ensures NoneOf(AssetRules(spec), spec.sharedDocumentUrn) && NoneOf(DocumentRules(spec), spec.sharedDocumentUrn)
  {
    hide OwnerEntry, TermEntry, TermInfo, UserInfo;
  }

  lemma {:induction false} FolderIsMade(c: Catalog, spec: Spec, stamp: Json)
    requires spec.sharedDocumentUrn !in c.entities
    ensures FolderHolds(EnsureFolder(c, spec, stamp), spec, stamp)
  {
    hide Satisfied, EnsureAll, FolderRules, DocumentRules, AssetRules, AllWellFormed, AspectOf, FolderText, FolderInfo,
      Compatible, AllSatisfied, ValidCatalog;
    NothingUnsatisfied(Emitted(c, Key(spec.sharedDocumentUrn, DocumentInfo), FolderInfo(stamp)), FolderRules(spec));
    var key := Key(spec.sharedDocumentUrn, DocumentInfo);
    var created := Emitted(c, key, FolderInfo(stamp));
    var rules := FolderRules(spec);
    DocumentRulesAre(spec);
    RulesAreCompatible(spec);
    RuleCounts(spec);
    EnsureAllSatisfies(created, rules, [], stamp);
    EnsureAllKeeps(created, rules, stamp);
    forall rule | rule in rules ensures AspectOf(rule) != key {
      var i :| 0 <= i < |rules| && rules[i] == rule;
    }
    assert NoneAbout(rules, key);
    FolderRulesAt(EnsureAll(created, rules, stamp), spec);
    FolderInfoText(stamp);
  }

  lemma {:induction false} NothingUnsatisfied(c: Catalog, rules: seq<Rule>)
    ensures AllSatisfied(c, []) && Compatible([], rules) && AllWellFormed([])
  {
  }

  lemma {:induction false} FolderInfoText(stamp: Json)
    ensures FolderText(FolderInfo(stamp), stamp)
  {
  }

  lemma {:induction false} FolderRulesAt(c: Catalog, spec: Spec)
    requires AllSatisfied(c, FolderRules(spec))
    ensures Str("Folder") in Entries(c, spec.sharedDocumentUrn, SubTypes, "typeNames")
    ensures Field(c, spec.sharedDocumentUrn, DocumentSettings, "showInGlobalContext") == Bool(true)
  {
    var rules := FolderRules(spec);
    assert Satisfied(rules[0], Current(c, AspectOf(rules[0]))) && Satisfied(rules[1], Current(c, AspectOf(rules[1])));
  }

  lemma {:induction false} SameFields(a: Catalog, b: Catalog, spec: Spec, stamp: Json)
    requires forall name ::
      Current(a, Key(spec.sharedDocumentUrn, name)) == Current(b, Key(spec.sharedDocumentUrn, name))
    ensures FolderHolds(a, spec, stamp) <==> FolderHolds(b, spec, stamp)
  {
    hide Current, FolderText;
  }

  /** A seed makes the shared folder where there is none, and leaves every aspect of one that
      exists as it is. */
  lemma {:induction false} SeedMakesFolder(c: Catalog, spec: Spec, stamp: Json)
    requires FolderApart(spec)
    ensures spec.sharedDocumentUrn !in c.entities ==> FolderHolds(Seeded(c, spec, stamp), spec, stamp)
    ensures spec.sharedDocumentUrn in c.entities ==>
      forall name :: Current(Seeded(c, spec, stamp), Key(spec.sharedDocumentUrn, name))
                     == Current(c, Key(spec.sharedDocumentUrn, name))
  {
    hide AssetRules, DocumentRules, FolderRules, EnsureAll, EnsureFolder, NoneOf, Current, FolderHolds;
    var urn := spec.sharedDocumentUrn;
    RulesAreElsewhere(spec);
    var assets := EnsureAll(c, AssetRules(spec), stamp);
    var folder := EnsureFolder(assets, spec, stamp);
    OthersLeaveAlone(c, AssetRules(spec), stamp, urn);
    OthersLeaveAlone(folder, DocumentRules(spec), stamp, urn);
    if urn in c.entities {
      FolderStays(assets, spec, stamp);
    } else {
      FolderIsMade(assets, spec, stamp);
      SameFields(Seeded(c, spec, stamp), folder, spec, stamp);
    }
  }

  lemma {:induction false} FolderStays(c: Catalog, spec: Spec, stamp: Json)
    requires spec.sharedDocumentUrn in c.entities
    ensures EnsureFolder(c, spec, stamp) == c
  {
  }

  // ---- What an update makes of an aspect ----

  /** These fields are set, and all others are as they were. */
  ghost predicate Sets(before: Json, after: Json, sets: map<string, Json>) {
    forall key :: Get(after, key) == if key in sets then sets[key] else Get(before, key)
  }

  /** A description: the text, when it was last modified, and, once, when it was created. */
  lemma {:induction false} DescriptionBecomes(urn: string, text: string, current: Json, stamp: Json)
    requires current.Obj?
    ensures Sets(current, Updated(DescriptionRule(urn, text), current, stamp), map[
              "description" := Str(text),
              "lastModified" := stamp,
              "created" := if "created" in current.fields then Get(current, "created") else stamp])
  {
  }

  lemma {:induction false} SubtypeBecomes(urn: string, subtype: string, current: Json, stamp: Json)
    requires current.Obj?
    ensures Sets(current, Updated(SubtypeRule(urn, subtype), current, stamp),
                 map["typeNames" := List(Items(current, "typeNames") + [Str(subtype)])])
  {
  }

  lemma {:induction false} SettingsBecome(urn: string, current: Json, stamp: Json)
    requires current.Obj?
    ensures Sets(current, Updated(SettingsRule(urn), current, stamp),
                 map["showInGlobalContext" := Bool(true), "lastModified" := stamp])
  {
  }

  /** The first entry with the identity is changed in place, or without one an entry is added. */
  ghost predicate PutFirst(before: seq<Json>, after: seq<Json>, idKey: string, id: Json, i: nat) {
    && i <= |before|
    && (forall j :: 0 <= j < i ==> Get(before[j], idKey) != id)
    && (i < |before| ==> Get(before[i], idKey) == id)
    && |after| == (if i < |before| then |before| else |before| + 1)
    && forall j :: 0 <= j < |before| && j != i ==> after[j] == before[j]
  }

  /** What stood at the place, or the empty map. */
  function Was(before: seq<Json>, i: nat): Json {
    if i < |before| then before[i] else Obj(map[])
  }

  lemma {:induction false} MergeSets(current: Json, required: JsonMap)
    requires current.Obj? && forall key :: key in required.fields ==> !required.fields[key].Obj?
    ensures Sets(current, Merge(current, required), required.fields)
  {
    var merged := Merge(current, required);
    forall key
      ensures Get(merged, key) == if key in required.fields then required.fields[key] else Get(current, key)
    {
      assert key in merged.fields <==> key in current.fields.Keys + required.fields.Keys;
      if key in merged.fields {
        assert merged.fields[key] == MergedField(current, required, key);
      }
    }
  }

  /** A list: the entry put in has every expected field, and keeps its other ones. */
  lemma {:induction false} ListBecomes(rule: Rule, current: Json, stamp: Json) returns (i: nat)
    requires rule.ListRule? && WellFormed(rule) && current.Obj?
    requires forall k :: k in rule.expected.fields ==> !rule.expected.fields[k].Obj?
    ensures var after := Updated(rule, current, stamp);
            var before, entries := Items(current, rule.listKey), Items(after, rule.listKey);
            && Sets(current, after, map[rule.listKey := List(entries), rule.stampKey := stamp])
            && PutFirst(before, entries, rule.identityKey, rule.expected.fields[rule.identityKey], i)
            && Sets(Was(before, i), entries[i], rule.expected.fields)
  {
    var before := Items(current, rule.listKey);
    i := FirstWith(before, rule.identityKey, Get(rule.expected, rule.identityKey));
    if i < |before| {
      MergeSets(before[i], rule.expected);
    }
    hide Merge;
  }

  /** The documentation link: address and description, when it was made - kept if that is known -
      and when it was last updated. */
  lemma {:induction false} ResourceBecomes(rule: Rule, current: Json, stamp: Json) returns (i: nat)
    requires rule.DocumentRule? && current.Obj?
    ensures var after := Updated(rule, current, stamp);
            var before, entries := Items(current, "elements"), Items(after, "elements");
            && Sets(current, after, map["elements" := List(entries)])
            && PutFirst(before, entries, "url", Str(rule.url), i)
            && EntryBecomes(rule, Was(before, i), entries[i], stamp)
  {
    var before := Items(current, "elements");
    i := FirstWith(before, "url", Str(rule.url));
    EntryIsUpdated(rule, Was(before, i), stamp);
    hide UpdatedEntry, EntryBecomes;
  }

  ghost predicate EntryBecomes(rule: Rule, before: Json, after: Json, stamp: Json)
    requires rule.DocumentRule?
  {
    var made := Get(before, "createStamp");
    Sets(before, after, map[
      "url" := Str(rule.url),
      "description" := Str(rule.description),
      "updateStamp" := stamp,
      "createStamp" := if made in {Null, Str(""), Bool(false), Num(0), List([]), Obj(map[])} then stamp else made])
  }

  lemma {:induction false} EntryIsUpdated(rule: Rule, entry: Json, stamp: Json)
    requires rule.DocumentRule?
    ensures EntryBecomes(rule, entry, UpdatedEntry(entry, rule.url, rule.description, stamp), stamp)
  {
  }

  lemma {:induction false} LinkAdded(links: seq<Json>, urn: string)
    ensures WithLink(links, AssetLink(urn)) ==
            if SomeContains(links, AssetLink(urn)) then links else links + [Obj(map["asset" := Str(urn)])]
  {
  }

  /** The fields of the context document beside the ones required of it. */
  lemma {:induction false} InfoStamps(rule: Rule, current: Json, stamp: Json)
    requires rule.InfoRule? && current.Obj?
    ensures var fields := Updated(rule, current, stamp).fields;
            && fields.Keys == current.fields.Keys + Expected(rule.title, rule.content, rule.parentUrn).fields.Keys
                              + {"customProperties", "created", "lastModified", "relatedAssets"}
            && fields["customProperties"] == (if "customProperties" in current.fields then
                 current.fields["customProperties"] else Obj(map[]))
            && fields["created"] == (if "created" in current.fields then current.fields["created"] else stamp)
            && fields["lastModified"] == stamp
            && fields["relatedAssets"] == List(WithLink(Items(current, "relatedAssets"), AssetLink(rule.assetUrn)))
  {
    ExpectedNames(rule.title, rule.content, rule.parentUrn);
    hide SomeContains, Items, WithLink, AssetLink, Expected;
  }

  /** The context document: its own fields replaced, its defaults filled in, its link added if it
      is not there, and every other field as it was. */
  lemma {:induction false} InfoBecomes(rule: Rule, current: Json, stamp: Json)
    requires rule.InfoRule? && current.Obj?
    ensures var after := Updated(rule, current, stamp);
            && Get(after, "title") == Str(rule.title)
            && Get(after, "source") == Obj(map["sourceType" := Str("NATIVE")])
            && Get(after, "status") == Obj(map["state" := Str("PUBLISHED")])
            && Get(after, "contents") == Obj(map["text" := Str(rule.content)])
            && Get(after, "parentDocument") == Obj(map["document" := Str(rule.parentUrn)])
    ensures var after := Updated(rule, current, stamp);
            && Get(after, "customProperties")
               == (if "customProperties" in current.fields then Get(current, "customProperties") else Obj(map[]))
            && Get(after, "created") == (if "created" in current.fields then Get(current, "created") else stamp)
            && Get(after, "lastModified") == stamp
    ensures var links := Items(current, "relatedAssets");
            Items(Updated(rule, current, stamp), "relatedAssets") ==
            if exists i :: 0 <= i < |links| && Get(links[i], "asset") == Str(rule.assetUrn) then links
            else links + [Obj(map["asset" := Str(rule.assetUrn)])]
    ensures forall key ::
              key !in {"title", "source", "status", "contents", "parentDocument"}
              && key !in {"customProperties", "created", "lastModified", "relatedAssets"} ==>
              Get(Updated(rule, current, stamp), key) == Get(current, key)
  {
    LinkMeans(Items(current, "relatedAssets"), rule.assetUrn);
    LinkAdded(Items(current, "relatedAssets"), rule.assetUrn);
    InfoOverlays(rule, current, stamp);
    forall key | key !in {"title", "source", "status", "contents", "parentDocument"}
                 && key !in {"customProperties", "created", "lastModified", "relatedAssets"}
      ensures Get(Updated(rule, current, stamp), key) == Get(current, key)
    {
      InfoLeavesRest(rule, current, stamp, key);
    }
    ExpectedFields(rule.title, rule.content, rule.parentUrn);
    InfoStamps(rule, current, stamp);
    hide SomeContains, WithLink, AssetLink, Updated, Expected;
  }

  lemma {:induction false} InfoLeavesRest(rule: Rule, current: Json, stamp: Json, key: string)
    requires rule.InfoRule? && current.Obj?
    requires key !in {"title", "source", "status", "contents", "parentDocument"}
    requires key !in {"customProperties", "created", "lastModified", "relatedAssets"}
    ensures Get(Updated(rule, current, stamp), key) == Get(current, key)
  {
    InfoOverlays(rule, current, stamp);
    ExpectedFields(rule.title, rule.content, rule.parentUrn);
    InfoStamps(rule, current, stamp);
    hide Updated, Expected, WithLink, AssetLink, Items;
  }

  // ---- What a seed presupposes, and what verification checks ----

  ghost predicate SomeHas(entries: seq<Json>, key: string, text: string, other: string, more: string) {
    exists i :: 0 <= i < |entries| && Get(entries[i], key) == Str(text) && Get(entries[i], other) == Str(more)
  }

  ghost predicate FedBy(c: Catalog, downstream: string, upstream: string, kind: string) {
    SomeHas(Entries(c, downstream, UpstreamLineage, "upstreams"), "dataset", upstream, "type", kind)
  }

  /** The five datasets are there, and each of the last four is fed by the one before it. */
  ghost predicate Ingested(c: Catalog, spec: Spec) {
    && spec.sourceUrn in c.entities && spec.dbtSourceUrn in c.entities && spec.stagingUrn in c.entities
    && spec.stagingTargetUrn in c.entities && spec.martUrn in c.entities
    && FedBy(c, spec.dbtSourceUrn, spec.sourceUrn, "COPY")
    && FedBy(c, spec.stagingUrn, spec.dbtSourceUrn, "TRANSFORMED")
    && FedBy(c, spec.stagingTargetUrn, spec.stagingUrn, "COPY")
    && FedBy(c, spec.martUrn, spec.stagingTargetUrn, "TRANSFORMED")
  }

  lemma {:induction false} SomeMeans(entries: seq<Json>, key: string, text: string, other: string, more: string)
    requires key != other
    ensures SomeContains(entries, Obj(map[key := Str(text), other := Str(more)])) <==>
            SomeHas(entries, key, text, other, more)
  {
    forall i | 0 <= i < |entries|
      ensures Contains(entries[i], Obj(map[key := Str(text), other := Str(more)])) <==>
              Get(entries[i], key) == Str(text) && Get(entries[i], other) == Str(more)
    {
      PairMeans(entries[i], key, text, other, more);
    }
    hide Contains;
  }

  lemma {:induction false} IngestedMeans(c: Catalog, spec: Spec)
    ensures DatasetsThere(c, spec) && LineageThere(c, spec) <==> Ingested(c, spec)
  {
    FedMeans(c, spec.dbtSourceUrn, spec.sourceUrn, "COPY");
    FedMeans(c, spec.stagingUrn, spec.dbtSourceUrn, "TRANSFORMED");
    FedMeans(c, spec.stagingTargetUrn, spec.stagingUrn, "COPY");
    FedMeans(c, spec.martUrn, spec.stagingTargetUrn, "TRANSFORMED");
    hide EntryThere, FedBy, Upstream;
    var checks := Lineage(spec);
    assert LineageThere(c, spec) <==>
           && EntryThere(c, Key(checks[0].0, UpstreamLineage), "upstreams", checks[0].1)
           && EntryThere(c, Key(checks[1].0, UpstreamLineage), "upstreams", checks[1].1)
           && EntryThere(c, Key(checks[2].0, UpstreamLineage), "upstreams", checks[2].1)
           && EntryThere(c, Key(checks[3].0, UpstreamLineage), "upstreams", checks[3].1);
    var urns := Datasets(spec);
    assert DatasetsThere(c, spec) <==>
           && urns[0] in c.entities && urns[1] in c.entities && urns[2] in c.entities && urns[3] in c.entities
           && urns[4] in c.entities;
  }

  lemma {:induction false} FedMeans(c: Catalog, downstream: string, upstream: string, kind: string)
    ensures EntryThere(c, Key(downstream, UpstreamLineage), "upstreams", Upstream(upstream, kind)) <==>
            FedBy(c, downstream, upstream, kind)
  {
    SomeMeans(Entries(c, downstream, UpstreamLineage, "upstreams"), "dataset", upstream, "type", kind);
    hide SomeContains, SomeHas, Current;
  }

  /** What the search answers shows the context document under its title. */
  ghost predicate Exposed(related: Answer<seq<Json>>, spec: Spec) {
    && related.Reply?
    && exists i :: 0 <= i < |related.value|
         && Get(related.value[i], "urn") == Str(spec.contextDocumentUrn)
         && Get(Get(related.value[i], "info"), "title") == Str(spec.contextDocumentTitle)
  }

  lemma {:induction false} ShownMeans(related: Answer<seq<Json>>, spec: Spec)
    ensures Shown(related, spec) <==> Exposed(related, spec)
  {
  }

  ghost predicate Attached(c: Catalog, spec: Spec, urn: string) {
    && SomeHas(Entries(c, urn, Ownership, "owners"), "owner", spec.ownerUrn, "type", "DATAOWNER")
    && SomeHas(Entries(c, urn, GlossaryTerms, "terms"), "urn", spec.termUrn, "actor", spec.ownerUrn)
  }

  /** The aspects that verification looks at are there and say what they must. */
  ghost predicate AssetsVerified(c: Catalog, spec: Spec) {
    && Field(c, spec.termUrn, GlossaryTermInfo, "definition") == Str(spec.termDefinition)
    && Field(c, spec.termUrn, GlossaryTermInfo, "termSource") == Str("INTERNAL")
    && Field(c, spec.termUrn, GlossaryTermInfo, "name") == Str("NetRevenue")
    && Field(c, spec.ownerUrn, CorpUserInfo, "active") == Bool(true)
    && Field(c, spec.ownerUrn, CorpUserInfo, "displayName") == Str("Finance Data")
    && Field(c, spec.ownerUrn, CorpUserInfo, "title") == Str("Finance Data Owner")
    && Field(c, spec.sourceUrn, EditableDatasetProperties, "description") == Str(spec.assetDescription)
    && Attached(c, spec, spec.sourceUrn)
    && SomeHas(Entries(c, spec.sourceUrn, InstitutionalMemory, "elements"), "url", spec.documentUrl,
               "description", spec.documentDescription)
  }

  ghost predicate DocumentVerified(c: Catalog, spec: Spec) {
    var urn := spec.contextDocumentUrn;
    && spec.sharedDocumentUrn in c.entities && urn in c.entities
    && InfoHolds(c, spec)
    && (exists i :: 0 <= i < |Entries(c, urn, DocumentInfo, "relatedAssets")|
          && Get(Entries(c, urn, DocumentInfo, "relatedAssets")[i], "asset") == Str(spec.sourceUrn))
    && Field(c, urn, DocumentSettings, "showInGlobalContext") == Bool(true)
    && Str("Context") in Entries(c, urn, SubTypes, "typeNames")
    && Attached(c, spec, urn)
  }

  lemma {:induction false} AttachedMeans(c: Catalog, spec: Spec, urn: string)
    ensures EntryThere(c, Key(urn, Ownership), "owners", OwnerEntry(spec))
            && EntryThere(c, Key(urn, GlossaryTerms), "terms", TermEntry(spec)) <==>
            Attached(c, spec, urn)
  {
    SomeMeans(Entries(c, urn, Ownership, "owners"), "owner", spec.ownerUrn, "type", "DATAOWNER");
    SomeMeans(Entries(c, urn, GlossaryTerms, "terms"), "urn", spec.termUrn, "actor", spec.ownerUrn);
    hide SomeContains, SomeHas, Current;
  }

  /** Fields that are there with plain values: the aspect is there and contains them. */
  lemma {:induction false} ThereMeans(c: Catalog, key: Key, expected: JsonMap, name: string)
    requires name in expected.fields && expected.fields[name] != Null
    requires forall k :: k in expected.fields ==> !expected.fields[k].Obj?
    requires ValidCatalog(c)
    ensures FieldsThere(c, key, expected) <==>
            forall k :: k in expected.fields ==> Get(Current(c, key), k) == expected.fields[k]
  {
    if key !in c.aspects {
      assert Get(Current(c, key), name) == Null;
    }
  }

  lemma {:induction false} TermChecked(c: Catalog, spec: Spec)
    requires ValidCatalog(c)
    ensures FieldsThere(c, Key(spec.termUrn, GlossaryTermInfo), TermCheck(spec)) <==>
            && Field(c, spec.termUrn, GlossaryTermInfo, "definition") == Str(spec.termDefinition)
            && Field(c, spec.termUrn, GlossaryTermInfo, "termSource") == Str("INTERNAL")
            && Field(c, spec.termUrn, GlossaryTermInfo, "name") == Str("NetRevenue")
  {
    var check := TermCheck(spec);
    assert check.fields.Keys == {"definition", "termSource", "name"};
    ThereMeans(c, Key(spec.termUrn, GlossaryTermInfo), check, "definition");
    hide FieldsThere, Current, ValidCatalog;
  }

  lemma {:induction false} UserChecked(c: Catalog, spec: Spec)
    requires ValidCatalog(c)
    ensures FieldsThere(c, Key(spec.ownerUrn, CorpUserInfo), UserCheck()) <==>
            && Field(c, spec.ownerUrn, CorpUserInfo, "active") == Bool(true)
            && Field(c, spec.ownerUrn, CorpUserInfo, "displayName") == Str("Finance Data")
            && Field(c, spec.ownerUrn, CorpUserInfo, "title") == Str("Finance Data Owner")
  {
    var check := UserCheck();
    assert check.fields.Keys == {"active", "displayName", "title"};
    ThereMeans(c, Key(spec.ownerUrn, CorpUserInfo), check, "title");
    hide FieldsThere, Current, ValidCatalog;
  }

  /** One plain field that is there. */
  lemma {:induction false} FieldChecked(c: Catalog, urn: string, name: AspectName, key: string, value: Json)
    requires ValidCatalog(c) && value != Null && !value.Obj?
    ensures FieldsThere(c, Key(urn, name), Obj(map[key := value])) <==> Field(c, urn, name, key) == value
  {
    assert Obj(map[key := value]).fields.Keys == {key};
    ThereMeans(c, Key(urn, name), Obj(map[key := value]), key);
    hide FieldsThere, Current, ValidCatalog;
  }

  lemma {:induction false} DocumentationChecked(c: Catalog, spec: Spec)
    ensures EntryThere(c, Key(spec.sourceUrn, InstitutionalMemory), "elements",
                       Resource(spec.documentUrl, spec.documentDescription))
            <==> SomeHas(Entries(c, spec.sourceUrn, InstitutionalMemory, "elements"), "url", spec.documentUrl,
                         "description", spec.documentDescription)
  {
    SomeMeans(Entries(c, spec.sourceUrn, InstitutionalMemory, "elements"), "url", spec.documentUrl,
      "description", spec.documentDescription);
    hide SomeContains, SomeHas, Current;
  }

  lemma {:induction false} AssetChecksMean(c: Catalog, spec: Spec)
    requires ValidCatalog(c)
    ensures AssetChecks(c, spec) <==> AssetsVerified(c, spec)
  {
    hide FieldsThere, EntryThere, SomeHas, Field, Entries, ValidCatalog, OwnerEntry, TermEntry, TermCheck, UserCheck,
      Attached, Resource;
    TermChecked(c, spec);
    UserChecked(c, spec);
    FieldChecked(c, spec.sourceUrn, EditableDatasetProperties, "description", Str(spec.assetDescription));
    AttachedMeans(c, spec, spec.sourceUrn);
    DocumentationChecked(c, spec);
  }

  lemma {:induction false} LinkChecked(c: Catalog, spec: Spec)
    ensures EntryThere(c, Key(spec.contextDocumentUrn, DocumentInfo), "relatedAssets", AssetLink(spec.sourceUrn)) <==>
            exists i :: 0 <= i < |Entries(c, spec.contextDocumentUrn, DocumentInfo, "relatedAssets")|
              && Get(Entries(c, spec.contextDocumentUrn, DocumentInfo, "relatedAssets")[i], "asset")
                 == Str(spec.sourceUrn)
  {
    LinkMeans(Entries(c, spec.contextDocumentUrn, DocumentInfo, "relatedAssets"), spec.sourceUrn);
    hide SomeContains, Current;
  }

  lemma {:induction false} TextMeans(c: Catalog, urn: string, name: AspectName, key: string, text: string)
    ensures TextThere(c, Key(urn, name), key, text) <==> Str(text) in Entries(c, urn, name, key)
  {
    hide Current;
  }

  lemma {:induction false} DocumentChecksMean(c: Catalog, spec: Spec)
    requires ValidCatalog(c)
    ensures DocumentChecks(c, spec) <==> DocumentVerified(c, spec)
  {
    hide FieldsThere, EntryThere, TextThere, SomeHas, Field, Entries, ValidCatalog, OwnerEntry, TermEntry, Attached,
      Expected, InfoHolds, AssetLink;
    var urn := spec.contextDocumentUrn;
    FieldChecked(c, urn, DocumentSettings, "showInGlobalContext", Bool(true));
    InfoMeans(c, spec);
    InfoThere(c, spec);
    LinkChecked(c, spec);
    TextMeans(c, urn, SubTypes, "typeNames", "Context");
    AttachedMeans(c, spec, urn);
  }

  lemma {:induction false} InfoThere(c: Catalog, spec: Spec)
    requires ValidCatalog(c)
    ensures var key := Key(spec.contextDocumentUrn, DocumentInfo);
            var expected := Expected(spec.contextDocumentTitle, spec.contextDocumentContent, spec.sharedDocumentUrn);
            FieldsThere(c, key, expected) <==> Contains(Current(c, key), expected)
  {
    EmptyContains(Expected(spec.contextDocumentTitle, spec.contextDocumentContent, spec.sharedDocumentUrn), "title");
    hide Contains, Expected;
  }
}
