/** The seeder: upserts the semantic context, one aspect at a time, and verifies it. */
module SeedContext {
  import opened Model
  import opened Metadata
  import opened SeedRules

  datatype Spec = Spec(
    sourceUrn: string,
    dbtSourceUrn: string,
    stagingUrn: string,
    stagingTargetUrn: string,
    martUrn: string,
    termUrn: string,
    ownerUrn: string,
    termDefinition: string,
    assetDescription: string,
    documentUrl: string,
    documentDescription: string,
    sharedDocumentUrn: string,
    contextDocumentUrn: string,
    contextDocumentTitle: string,
    contextDocumentContent: string)

  /** What the catalog holds: the aspects, and the entities that exist. */
  datatype Catalog = Catalog(aspects: map<Key, Json>, entities: set<string>)

  ghost predicate ValidCatalog(c: Catalog) {
    forall key :: key in c.aspects ==> c.aspects[key].Obj? && key.urn in c.entities
  }

  /** An aspect that is not there, or empty, reads as the empty map. */
  function Current(c: Catalog, key: Key): (current: Json)
    ensures current.Obj?
  {
    if key in c.aspects && c.aspects[key].Obj? then c.aspects[key] else Obj(map[])
  }

  function Emitted(c: Catalog, key: Key, value: Json): Catalog {
    Catalog(c.aspects[key := value], c.entities + {key.urn})
  }

  // ---- Seeding as a function ----

  function EnsureRule(c: Catalog, rule: Rule, stamp: Json): Catalog
  {
    var current := Current(c, AspectOf(rule));
    if Satisfied(rule, current) then c else Emitted(c, AspectOf(rule), Updated(rule, current, stamp))
  }

  /** The aspects that applying the rule writes. */
  function Writes(c: Catalog, rule: Rule): seq<Key> {
    if Satisfied(rule, Current(c, AspectOf(rule))) then [] else [AspectOf(rule)]
  }

  function EnsureAll(c: Catalog, rules: seq<Rule>, stamp: Json): Catalog
  {
    if rules == [] then c
    else EnsureRule(EnsureAll(c, rules[..|rules| - 1], stamp), rules[|rules| - 1], stamp)
  }

  function AllWrites(c: Catalog, rules: seq<Rule>, stamp: Json): seq<Key>
  {
    if rules == [] then []
    else
      AllWrites(c, rules[..|rules| - 1], stamp)
      + Writes(EnsureAll(c, rules[..|rules| - 1], stamp), rules[|rules| - 1])
  }

  function OwnerEntry(spec: Spec): JsonMap {
    Obj(map["owner" := Str(spec.ownerUrn), "type" := Str("DATAOWNER")])
  }

  function TermEntry(spec: Spec): JsonMap {
    Obj(map["urn" := Str(spec.termUrn), "actor" := Str(spec.ownerUrn)])
  }

  function TermInfo(spec: Spec): JsonMap {
    Obj(map[
      "definition" := Str(spec.termDefinition),
      "termSource" := Str("INTERNAL"),
      "name" := Str("NetRevenue"),
      "customProperties" := Obj(map["managedBy" := Str("DataRescue")])])
  }

  function UserInfo(): JsonMap {
    Obj(map[
      "active" := Bool(true),
      "displayName" := Str("Finance Data"),
      "title" := Str("Finance Data Owner"),
      "email" := Str("finance-data@example.invalid"),
      "system" := Bool(false)])
  }

  function OwnersRule(spec: Spec, urn: string): Rule {
    ListRule(urn, Ownership, "owners", OwnerEntry(spec), "owner", "lastModified")
  }

  function TermsRule(spec: Spec, urn: string): Rule {
    ListRule(urn, GlossaryTerms, "terms", TermEntry(spec), "urn", "auditStamp")
  }

  /** What is required of the term, the owner and the source dataset. */
  function AssetRules(spec: Spec): seq<Rule> {
    [ ObjectRule(spec.termUrn, GlossaryTermInfo, TermInfo(spec)),
      ObjectRule(spec.ownerUrn, CorpUserInfo, UserInfo()),
      DescriptionRule(spec.sourceUrn, spec.assetDescription),
      OwnersRule(spec, spec.sourceUrn),
      TermsRule(spec, spec.sourceUrn),
      DocumentRule(spec.sourceUrn, spec.documentUrl, spec.documentDescription) ]
  }

  /** What is required of the context document. */
  function DocumentRules(spec: Spec): seq<Rule> {
    var urn := spec.contextDocumentUrn;
    [ InfoRule(urn, spec.contextDocumentTitle, spec.contextDocumentContent, spec.sharedDocumentUrn, spec.sourceUrn),
      SubtypeRule(urn, "Context"),
      SettingsRule(urn),
      OwnersRule(spec, urn),
      TermsRule(spec, urn) ]
  }

  /** What is required of a shared folder that the seeder creates. */
  function FolderRules(spec: Spec): seq<Rule> {
    [ SubtypeRule(spec.sharedDocumentUrn, "Folder"), SettingsRule(spec.sharedDocumentUrn) ]
  }

  const FOLDER_TEXT := "Contains shared documents authored through DataHub agents."

  function FolderInfo(stamp: Json): JsonMap {
    Obj(map[
      "title" := Str("Shared"),
      "source" := Obj(map["sourceType" := Str("NATIVE")]),
      "status" := Obj(map["state" := Str("PUBLISHED")]),
      "contents" := Obj(map["text" := Str(FOLDER_TEXT)]),
      "created" := stamp,
      "lastModified" := stamp])
  }

  /** A shared folder that exists is left as it is. */
  function EnsureFolder(c: Catalog, spec: Spec, stamp: Json): Catalog {
    if spec.sharedDocumentUrn in c.entities then c
    else EnsureAll(Emitted(c, Key(spec.sharedDocumentUrn, DocumentInfo), FolderInfo(stamp)), FolderRules(spec), stamp)
  }

  function FolderWrites(c: Catalog, spec: Spec, stamp: Json): seq<Key> {
    if spec.sharedDocumentUrn in c.entities then []
    else
      [Key(spec.sharedDocumentUrn, DocumentInfo)]
      + AllWrites(Emitted(c, Key(spec.sharedDocumentUrn, DocumentInfo), FolderInfo(stamp)), FolderRules(spec), stamp)
  }

  /** The catalog after one seed, and what it wrote. */
  function Seeded(c: Catalog, spec: Spec, stamp: Json): Catalog {
    EnsureAll(EnsureFolder(EnsureAll(c, AssetRules(spec), stamp), spec, stamp), DocumentRules(spec), stamp)
  }

  function SeedWrites(c: Catalog, spec: Spec, stamp: Json): seq<Key> {
    var assets := EnsureAll(c, AssetRules(spec), stamp);
    AllWrites(c, AssetRules(spec), stamp)
    + FolderWrites(assets, spec, stamp)
    + AllWrites(EnsureFolder(assets, spec, stamp), DocumentRules(spec), stamp)
  }

  // ---- Seeding converges ----

  ghost predicate AllSatisfied(c: Catalog, rules: seq<Rule>) {
    forall i :: 0 <= i < |rules| ==> Satisfied(rules[i], Current(c, AspectOf(rules[i])))
  }

  /** The rules are about different aspects, or are the same rule. */
  ghost predicate Compatible(rules: seq<Rule>, more: seq<Rule>) {
    forall i, j :: 0 <= i < |rules| && 0 <= j < |more| ==>
        AspectOf(rules[i]) != AspectOf(more[j]) || rules[i] == more[j]
  }

  ghost predicate AllWellFormed(rules: seq<Rule>) {
    forall rule :: rule in rules ==> WellFormed(rule)
  }

  lemma {:induction false} EnsureKeeps(c: Catalog, rule: Rule, other: Rule, stamp: Json)
    requires WellFormed(rule)
    requires AspectOf(rule) != AspectOf(other) || rule == other
    ensures Satisfied(rule, Current(c, AspectOf(rule))) || rule == other ==>
            Satisfied(rule, Current(EnsureRule(c, other, stamp), AspectOf(rule)))
  {
    UpdateSatisfies(rule, Current(c, AspectOf(rule)), stamp);
    hide Satisfied, Updated;
  }

  /** Whatever the catalog was, applying compatible rules satisfies them, and leaves satisfied what
      is compatible with them. */
  lemma {:induction false} EnsureAllSatisfies(c: Catalog, rules: seq<Rule>, kept: seq<Rule>, stamp: Json)
    requires AllWellFormed(rules) && AllWellFormed(kept)
    requires Compatible(rules, rules) && Compatible(kept, rules) && AllSatisfied(c, kept)
    ensures AllSatisfied(EnsureAll(c, rules, stamp), rules) && AllSatisfied(EnsureAll(c, rules, stamp), kept)
  {
    hide Satisfied, WellFormed, AspectOf, EnsureRule, Current;
    if rules != [] {
      var init, last := rules[..|rules| - 1], rules[|rules| - 1];
      assert Compatible(init, init) && Compatible(kept, init);
      EnsureAllSatisfies(c, init, kept, stamp);
      var middle := EnsureAll(c, init, stamp);
      forall i | 0 <= i < |rules| ensures Satisfied(rules[i], Current(EnsureAll(c, rules, stamp), AspectOf(rules[i]))) {
        EnsureKeeps(middle, rules[i], last, stamp);
        assert i < |init| ==> Satisfied(init[i], Current(middle, AspectOf(init[i])));
      }
      forall i | 0 <= i < |kept| ensures Satisfied(kept[i], Current(EnsureAll(c, rules, stamp), AspectOf(kept[i]))) {
        EnsureKeeps(middle, kept[i], last, stamp);
      }
    }
  }

  /** Nothing is written for rules that are satisfied. */
  lemma {:induction false} SatisfiedWritesNothing(c: Catalog, rules: seq<Rule>, stamp: Json)
    requires AllWellFormed(rules) && AllSatisfied(c, rules)
    ensures EnsureAll(c, rules, stamp) == c && AllWrites(c, rules, stamp) == []
  {
    hide Satisfied, WellFormed, AspectOf, Current;
    if rules != [] {
      var init := rules[..|rules| - 1];
      assert AllSatisfied(c, init) by {
        forall i | 0 <= i < |init| ensures Satisfied(init[i], Current(c, AspectOf(init[i]))) {
          assert init[i] == rules[i];
        }
      }
      SatisfiedWritesNothing(c, init, stamp);
      assert Satisfied(rules[|init|], Current(c, AspectOf(rules[|init|])));
    }
  }

  /** No rule is about the aspect. */
  ghost predicate NoneAbout(rules: seq<Rule>, key: Key) {
    forall rule :: rule in rules ==> AspectOf(rule) != key
  }

  /** Entities stay, and so do aspects no rule is about. */
  lemma {:induction false} EnsureAllKeeps(c: Catalog, rules: seq<Rule>, stamp: Json)
    requires AllWellFormed(rules)
    ensures var after := EnsureAll(c, rules, stamp);
            && c.entities <= after.entities
            && (ValidCatalog(c) ==> ValidCatalog(after))
            && forall key :: NoneAbout(rules, key) ==>
                 (key in after.aspects <==> key in c.aspects)
                     && (key in c.aspects ==> after.aspects[key] == c.aspects[key])
  {
    hide Satisfied, WellFormed, AspectOf, Updated, Current;
    if rules != [] {
      var init := rules[..|rules| - 1];
      EnsureAllKeeps(c, init, stamp);
      assert rules[|rules| - 1] in rules;
      assert forall key :: NoneAbout(rules, key) ==> NoneAbout(init, key);
    }
  }

  const ASSET_ASPECTS :=
    [GlossaryTermInfo, CorpUserInfo, EditableDatasetProperties, Ownership, GlossaryTerms, InstitutionalMemory]
  const DOCUMENT_ASPECTS := [DocumentInfo, SubTypes, DocumentSettings, Ownership, GlossaryTerms]
  const FOLDER_ASPECTS := [SubTypes, DocumentSettings]

  lemma {:induction false} AssetRulesAre(spec: Spec)
    ensures AllWellFormed(AssetRules(spec))
    ensures forall i :: 0 <= i < 6 ==> AspectOf(AssetRules(spec)[i]).name == ASSET_ASPECTS[i]
    ensures forall i :: 2 <= i < 6 ==> AspectOf(AssetRules(spec)[i]).urn == spec.sourceUrn
  {
    assert OwnerEntry(spec).fields["owner"].Str? && TermEntry(spec).fields["urn"].Str?;
  }

  lemma {:induction false} DocumentRulesAre(spec: Spec)
    ensures AllWellFormed(DocumentRules(spec)) && AllWellFormed(FolderRules(spec))
    ensures forall i :: 0 <= i < 5 ==>
        AspectOf(DocumentRules(spec)[i]) == Key(spec.contextDocumentUrn, DOCUMENT_ASPECTS[i])
    ensures forall i :: 0 <= i < 2 ==> AspectOf(FolderRules(spec)[i]) == Key(spec.sharedDocumentUrn, FOLDER_ASPECTS[i])
  {
    assert OwnerEntry(spec).fields["owner"].Str? && TermEntry(spec).fields["urn"].Str?;
  }

  /** All rules are about different aspects - except that the source dataset and the context
      document, were they one entity, would share two rules. */
  lemma {:induction false} RulesAreCompatible(spec: Spec)
    ensures Compatible(AssetRules(spec), AssetRules(spec)) && Compatible(DocumentRules(spec), DocumentRules(spec))
    ensures Compatible(FolderRules(spec), FolderRules(spec))
    ensures Compatible(AssetRules(spec), DocumentRules(spec)) && Compatible(AssetRules(spec), FolderRules(spec))
  {
    AssetRulesAre(spec);
    DocumentRulesAre(spec);
    SharedRules(spec);
    hide AspectOf, AllWellFormed, AssetRules, DocumentRules, FolderRules, OwnersRule, TermsRule;
    assert |AssetRules(spec)| == 6 && |DocumentRules(spec)| == 5 && |FolderRules(spec)| == 2 by { RuleCounts(spec); }
  }

  lemma {:induction false} RuleCounts(spec: Spec)
    ensures |AssetRules(spec)| == 6 && |DocumentRules(spec)| == 5 && |FolderRules(spec)| == 2
  {
  }

  lemma {:induction false} SharedRules(spec: Spec)
    ensures AssetRules(spec)[3] == OwnersRule(spec, spec.sourceUrn)
        && AssetRules(spec)[4] == TermsRule(spec, spec.sourceUrn)
    ensures DocumentRules(spec)[3] == OwnersRule(spec, spec.contextDocumentUrn)
    ensures DocumentRules(spec)[4] == TermsRule(spec, spec.contextDocumentUrn)
  {
  }

  /** The catalog needs nothing from the seeder. */
  ghost predicate NeedsNothing(c: Catalog, spec: Spec) {
    && AllSatisfied(c, AssetRules(spec)) && AllSatisfied(c, DocumentRules(spec))
    && spec.sharedDocumentUrn in c.entities
  }

  lemma {:induction false} FolderKeepsAssets(c: Catalog, spec: Spec, stamp: Json)
    requires AllSatisfied(c, AssetRules(spec))
    ensures AllSatisfied(EnsureFolder(c, spec, stamp), AssetRules(spec))
    ensures spec.sharedDocumentUrn in EnsureFolder(c, spec, stamp).entities
  {
    AssetRulesAre(spec);
    DocumentRulesAre(spec);
    RulesAreCompatible(spec);
    RuleCounts(spec);
    hide AspectOf, AssetRules, FolderRules, Satisfied, WellFormed;
    if spec.sharedDocumentUrn !in c.entities {
      var created := Emitted(c, Key(spec.sharedDocumentUrn, DocumentInfo), FolderInfo(stamp));
      forall i | 0 <= i < 6
        ensures Satisfied(AssetRules(spec)[i], Current(created, AspectOf(AssetRules(spec)[i])))
      {
        assert AspectOf(AssetRules(spec)[i]).name != DocumentInfo;
      }
      EnsureAllSatisfies(created, FolderRules(spec), AssetRules(spec), stamp);
      EnsureAllKeeps(created, FolderRules(spec), stamp);
    }
  }

  /** After a seed, whatever the catalog was, everything required is there. */
  lemma {:induction false} SeedSatisfies(c: Catalog, spec: Spec, stamp: Json)
    ensures NeedsNothing(Seeded(c, spec, stamp), spec)
  {
    AssetRulesAre(spec);
    DocumentRulesAre(spec);
    RulesAreCompatible(spec);
    hide AspectOf, AssetRules, DocumentRules, Satisfied, WellFormed, EnsureAll, EnsureFolder;
    var assets := EnsureAll(c, AssetRules(spec), stamp);
    EnsureAllSatisfies(c, AssetRules(spec), [], stamp);
    FolderKeepsAssets(assets, spec, stamp);
    var folder := EnsureFolder(assets, spec, stamp);
    EnsureAllSatisfies(folder, DocumentRules(spec), AssetRules(spec), stamp);
    EnsureAllKeeps(folder, DocumentRules(spec), stamp);
  }

  /** A catalog that needs nothing is left exactly as it is. */
  lemma {:induction false} SeedIsIdle(c: Catalog, spec: Spec, stamp: Json)
    requires NeedsNothing(c, spec)
    ensures Seeded(c, spec, stamp) == c && SeedWrites(c, spec, stamp) == []
  {
    AssetRulesAre(spec);
    DocumentRulesAre(spec);
    hide AspectOf, AssetRules, DocumentRules, FolderRules, Satisfied, WellFormed, EnsureAll, AllWrites;
    SatisfiedWritesNothing(c, AssetRules(spec), stamp);
    SatisfiedWritesNothing(c, DocumentRules(spec), stamp);
  }

  /** A second seed, at any later time, writes nothing. */
  lemma {:induction false} SeedConverges(c: Catalog, spec: Spec, stamp: Json, later: Json)
    ensures var once := Seeded(c, spec, stamp);
            Seeded(once, spec, later) == once && SeedWrites(once, spec, later) == []
  {
    SeedSatisfies(c, spec, stamp);
    SeedIsIdle(Seeded(c, spec, stamp), spec, later);
  }

  /** Seeding leaves every aspect alone that it has no rule for, and removes no entity. */
  lemma {:induction false} SeedKeepsOthers(c: Catalog, spec: Spec, stamp: Json, key: Key)
    requires NoneAbout(AssetRules(spec), key) && NoneAbout(DocumentRules(spec), key)
    requires key.urn == spec.sharedDocumentUrn ==> key.name !in {DocumentInfo, SubTypes, DocumentSettings}
    ensures var after := Seeded(c, spec, stamp);
            && c.entities <= after.entities
            && (ValidCatalog(c) ==> ValidCatalog(after))
            && (key in after.aspects <==> key in c.aspects)
            && (key in c.aspects ==> after.aspects[key] == c.aspects[key])
  {
    AssetRulesAre(spec);
    DocumentRulesAre(spec);
    var assets := EnsureAll(c, AssetRules(spec), stamp);
    EnsureAllKeeps(c, AssetRules(spec), stamp);
    FolderKeepsOthers(assets, spec, stamp, key);
    EnsureAllKeeps(EnsureFolder(assets, spec, stamp), DocumentRules(spec), stamp);
    hide AspectOf, AssetRules, DocumentRules, Satisfied, WellFormed, EnsureAll, EnsureFolder;
  }

  lemma {:induction false} FolderKeepsOthers(c: Catalog, spec: Spec, stamp: Json, key: Key)
    requires key.urn == spec.sharedDocumentUrn ==> key.name !in {DocumentInfo, SubTypes, DocumentSettings}
    ensures var after := EnsureFolder(c, spec, stamp);
            && c.entities <= after.entities
            && (ValidCatalog(c) ==> ValidCatalog(after))
            && (key in after.aspects <==> key in c.aspects)
            && (key in c.aspects ==> after.aspects[key] == c.aspects[key])
  {
    DocumentRulesAre(spec);
    RuleCounts(spec);
    hide AspectOf, FolderRules, Satisfied, WellFormed, EnsureAll;
    if spec.sharedDocumentUrn !in c.entities {
      var created := Emitted(c, Key(spec.sharedDocumentUrn, DocumentInfo), FolderInfo(stamp));
      EnsureAllKeeps(created, FolderRules(spec), stamp);
      assert NoneAbout(FolderRules(spec), key) by {
        forall rule | rule in FolderRules(spec) ensures AspectOf(rule) != key {
          var i :| 0 <= i < |FolderRules(spec)| && FolderRules(spec)[i] == rule;
        }
      }
    }
  }

  // ---- What seeding preserves inside the aspects it is about ----

  function Outcome(c: Catalog, rule: Rule, stamp: Json): Json
  {
    var current := Current(c, AspectOf(rule));
    if Satisfied(rule, current) then current else Updated(rule, current, stamp)
  }

  lemma {:induction false} OutcomeOfOne(c: Catalog, rule: Rule, other: Rule, stamp: Json)
    ensures Current(EnsureRule(c, rule, stamp), AspectOf(rule)) == Outcome(c, rule, stamp)
    ensures AspectOf(rule) != AspectOf(other) ==>
            Current(EnsureRule(c, other, stamp), AspectOf(rule)) == Current(c, AspectOf(rule))
  {
    hide Satisfied, Updated, AspectOf;
  }

  /** Each aspect is written at most once, from what it was. */
  lemma {:induction false} WrittenOnce(c: Catalog, rules: seq<Rule>, stamp: Json, rule: Rule)
    requires AllWellFormed(rules) && Compatible([rule], rules) && WellFormed(rule)
    ensures Current(EnsureAll(c, rules, stamp), AspectOf(rule)) ==
            if NoneAbout(rules, AspectOf(rule)) then Current(c, AspectOf(rule)) else Outcome(c, rule, stamp)
  {
    hide Satisfied, Updated, AspectOf, WellFormed, Current;
    if rules != [] {
      var init, last := rules[..|rules| - 1], rules[|rules| - 1];
      assert [rule][0] == rule && Compatible([rule], init);
      WrittenOnce(c, init, stamp, rule);
      var middle := EnsureAll(c, init, stamp);
      OutcomeOfOne(middle, rule, last, stamp);
      assert NoneAbout(rules, AspectOf(rule)) <==> NoneAbout(init, AspectOf(rule)) && AspectOf(last) != AspectOf(rule);
      if AspectOf(last) == AspectOf(rule) {
        assert last == rule;
        SameOutcome(c, middle, rule, stamp);
      }
    }
  }

  /** Applying a rule again to its own outcome changes nothing. */
  lemma {:induction false} SameOutcome(c: Catalog, middle: Catalog, rule: Rule, stamp: Json)
    requires WellFormed(rule)
    requires Current(middle, AspectOf(rule)) in {Current(c, AspectOf(rule)), Outcome(c, rule, stamp)}
    ensures Outcome(middle, rule, stamp) == Outcome(c, rule, stamp)
  {
    UpdateSatisfies(rule, Current(c, AspectOf(rule)), stamp);
    hide Satisfied, Updated, AspectOf, Current;
  }

  lemma {:induction false} RuleCompatible(rules: seq<Rule>, more: seq<Rule>, rule: Rule)
    requires rule in rules && Compatible(rules, more)
    ensures Compatible([rule], more)
  {
    var i :| 0 <= i < |rules| && rules[i] == rule;
  }

  lemma {:induction false} CompatibleBack(rules: seq<Rule>, more: seq<Rule>)
    requires Compatible(rules, more)
    ensures Compatible(more, rules)
  {
  }

  /** What becomes of an aspect the seeder has a rule for: the rule's outcome on what it was. */
  lemma {:induction false} SeedOutcome(c: Catalog, spec: Spec, stamp: Json, rule: Rule)
    requires rule in AssetRules(spec) + DocumentRules(spec)
    requires spec.sharedDocumentUrn != spec.contextDocumentUrn
    ensures WellFormed(rule)
    ensures Current(Seeded(c, spec, stamp), AspectOf(rule)) == Outcome(c, rule, stamp)
  {
    AssetRulesAre(spec);
    DocumentRulesAre(spec);
    RulesAreCompatible(spec);
    CompatibleBack(AssetRules(spec), DocumentRules(spec));
    OutsideFolder(spec, rule);
    hide AspectOf, AssetRules, DocumentRules, Satisfied, WellFormed, EnsureAll, EnsureFolder, Outcome, Current,
      Compatible;
    if rule in AssetRules(spec) {
      RuleCompatible(AssetRules(spec), AssetRules(spec), rule);
      RuleCompatible(AssetRules(spec), DocumentRules(spec), rule);
    } else {
      RuleCompatible(DocumentRules(spec), AssetRules(spec), rule);
      RuleCompatible(DocumentRules(spec), DocumentRules(spec), rule);
    }
    var assets := EnsureAll(c, AssetRules(spec), stamp);
    WrittenOnce(c, AssetRules(spec), stamp, rule);
    FolderKeepsOthers(assets, spec, stamp, AspectOf(rule));
    var folder := EnsureFolder(assets, spec, stamp);
    assert Current(folder, AspectOf(rule)) == Current(assets, AspectOf(rule))
        by { SameCurrent(folder, assets, AspectOf(rule)); }
    WrittenOnce(folder, DocumentRules(spec), stamp, rule);
    SameOutcome(c, folder, rule, stamp);
    assert NoneAbout(DocumentRules(spec), AspectOf(rule)) ==> !NoneAbout(AssetRules(spec), AspectOf(rule));
  }

  lemma {:induction false} SameCurrent(a: Catalog, b: Catalog, key: Key)
    requires key in a.aspects <==> key in b.aspects
    requires key in b.aspects ==> a.aspects[key] == b.aspects[key]
    ensures Current(a, key) == Current(b, key)
  {
  }

  lemma {:induction false} OutsideFolder(spec: Spec, rule: Rule)
    requires rule in AssetRules(spec) + DocumentRules(spec) && spec.sharedDocumentUrn != spec.contextDocumentUrn
    ensures AspectOf(rule).urn == spec.sharedDocumentUrn ==>
        AspectOf(rule).name !in {DocumentInfo, SubTypes, DocumentSettings}
  {
    AssetRulesAre(spec);
    DocumentRulesAre(spec);
    RuleCounts(spec);
    hide AspectOf, AssetRules, DocumentRules;
    if rule in AssetRules(spec) {
      var i :| 0 <= i < |AssetRules(spec)| && AssetRules(spec)[i] == rule;
      assert ASSET_ASPECTS[i] !in {DocumentInfo, SubTypes, DocumentSettings};
    } else {
      var i :| 0 <= i < |DocumentRules(spec)| && DocumentRules(spec)[i] == rule;
    }
  }

  /** A seed keeps, of every aspect it is about, all fields at every map level that its rule does
      not name, and every list entry but the rule's own. The context document's information is
      the exception: its nested maps are replaced, so it keeps them only if they hold nothing else
      - or if the document needed nothing. */
  lemma {:induction false} SeedKeepsUnknown(c: Catalog, spec: Spec, stamp: Json, rule: Rule)
    requires rule in AssetRules(spec) + DocumentRules(spec)
    requires spec.sharedDocumentUrn != spec.contextDocumentUrn
    ensures WellFormed(rule)
    ensures var before, after := Current(c, AspectOf(rule)), Current(Seeded(c, spec, stamp), AspectOf(rule));
            && ListKept(rule, ListOf(rule, before), ListOf(rule, after))
            && (KeepsUnknown(before, after, Touched(rule)) <==>
                (rule.InfoRule? && !Satisfied(rule, before) ==>
                 NestedPlain(before, Expected(rule.title, rule.content, rule.parentUrn))))
  {
    SeedOutcome(c, spec, stamp, rule);
    var before := Current(c, AspectOf(rule));
    UpdateKeepsEntries(rule, before, stamp);
    ListKeptItself(rule, ListOf(rule, before));
    KeepsItself(before, Touched(rule));
    if rule.InfoRule? {
      InfoKeepsUnknown(rule.urn, rule.title, rule.content, rule.parentUrn, rule.assetUrn, before, stamp);
    } else {
      UpdateKeepsUnknown(rule, before, stamp);
    }
    hide AspectOf, AssetRules, DocumentRules, Satisfied, WellFormed, Seeded, Current, ListKept, ListOf, KeepsUnknown,
      Touched, NestedPlain, Expected, Updated;
  }

  lemma {:induction false} ListKeptItself(rule: Rule, entries: seq<Json>)
    requires WellFormed(rule)
    ensures ListKept(rule, entries, entries)
  {
    match rule
    case ListRule(_, _, _, expected, identityKey, _) =>
      var i := FirstWith(entries, identityKey, Get(expected, identityKey));
      if i < |entries| && entries[i].Obj? {
        KeepsItself(entries[i], expected);
      }
    case DocumentRule(_, url, description) =>
      var i := FirstWith(entries, "url", Str(url));
      if i < |entries| && entries[i].Obj? {
        KeepsItself(entries[i], Obj(Resource(url, description).fields["createStamp" := Null]["updateStamp" := Null]));
      }
    case _ =>
  }

  // ---- What verification checks ----

  predicate FieldsThere(c: Catalog, key: Key, expected: Json) {
    key in c.aspects && Contains(c.aspects[key], expected)
  }

  predicate EntryThere(c: Catalog, key: Key, listKey: string, expected: Json) {
    SomeContains(Items(Current(c, key), listKey), expected)
  }

  predicate TextThere(c: Catalog, key: Key, listKey: string, text: string) {
    Str(text) in Items(Current(c, key), listKey)
  }

  function Datasets(spec: Spec): seq<string> {
    [spec.sourceUrn, spec.dbtSourceUrn, spec.stagingUrn, spec.stagingTargetUrn, spec.martUrn]
  }

  predicate DatasetsThere(c: Catalog, spec: Spec) {
    forall i :: 0 <= i < 5 ==> Datasets(spec)[i] in c.entities
  }

  function Upstream(urn: string, kind: string): JsonMap {
    Obj(map["dataset" := Str(urn), "type" := Str(kind)])
  }

  /** Downstream dataset and the upstream it must have. */
  function Lineage(spec: Spec): seq<(string, Json)> {
    [ (spec.dbtSourceUrn, Upstream(spec.sourceUrn, "COPY")),
      (spec.stagingUrn, Upstream(spec.dbtSourceUrn, "TRANSFORMED")),
      (spec.stagingTargetUrn, Upstream(spec.stagingUrn, "COPY")),
      (spec.martUrn, Upstream(spec.stagingTargetUrn, "TRANSFORMED")) ]
  }

  predicate LineageThere(c: Catalog, spec: Spec) {
    forall i :: 0 <= i < 4 ==>
      EntryThere(c, Key(Lineage(spec)[i].0, UpstreamLineage), "upstreams", Lineage(spec)[i].1)
  }

  function TermCheck(spec: Spec): JsonMap {
    Obj(map["definition" := Str(spec.termDefinition), "termSource" := Str("INTERNAL"), "name" := Str("NetRevenue")])
  }

  function UserCheck(): JsonMap {
    Obj(map["active" := Bool(true), "displayName" := Str("Finance Data"), "title" := Str("Finance Data Owner")])
  }

  predicate AssetChecks(c: Catalog, spec: Spec) {
    && FieldsThere(c, Key(spec.termUrn, GlossaryTermInfo), TermCheck(spec))
    && FieldsThere(c, Key(spec.ownerUrn, CorpUserInfo), UserCheck())
    && FieldsThere(c, Key(spec.sourceUrn, EditableDatasetProperties),
        Obj(map["description" := Str(spec.assetDescription)]))
    && EntryThere(c, Key(spec.sourceUrn, Ownership), "owners", OwnerEntry(spec))
    && EntryThere(c, Key(spec.sourceUrn, GlossaryTerms), "terms", TermEntry(spec))
    && EntryThere(c, Key(spec.sourceUrn, InstitutionalMemory), "elements",
        Resource(spec.documentUrl, spec.documentDescription))
  }

  predicate DocumentInfoChecks(c: Catalog, spec: Spec) {
    var urn := spec.contextDocumentUrn;
    && spec.sharedDocumentUrn in c.entities
    && urn in c.entities
    && FieldsThere(c, Key(urn, DocumentInfo),
                   Expected(spec.contextDocumentTitle, spec.contextDocumentContent, spec.sharedDocumentUrn))
    && EntryThere(c, Key(urn, DocumentInfo), "relatedAssets", AssetLink(spec.sourceUrn))
  }

  predicate DocumentAspectChecks(c: Catalog, spec: Spec) {
    var urn := spec.contextDocumentUrn;
    && FieldsThere(c, Key(urn, DocumentSettings), Obj(map["showInGlobalContext" := Bool(true)]))
    && TextThere(c, Key(urn, SubTypes), "typeNames", "Context")
    && EntryThere(c, Key(urn, Ownership), "owners", OwnerEntry(spec))
    && EntryThere(c, Key(urn, GlossaryTerms), "terms", TermEntry(spec))
  }

  predicate DocumentChecks(c: Catalog, spec: Spec) {
    DocumentInfoChecks(c, spec) && DocumentAspectChecks(c, spec)
  }

  /** The catalog's search shows the context document for the dataset. */
  predicate Shown(related: Answer<seq<Json>>, spec: Spec) {
    && related.Reply?
    && exists i :: 0 <= i < |related.value|
         && Get(related.value[i], "urn") == Str(spec.contextDocumentUrn)
         && Get(Get(related.value[i], "info"), "title") == Str(spec.contextDocumentTitle)
  }

  lemma {:induction false} EmptyContains(expected: Json, key: string)
    requires expected.Obj? && key in expected.fields && expected.fields[key] != Null
    ensures !Contains(Obj(map[]), expected)
  {
    assert Get(Obj(map[]), key) == Null;
  }

  /** An aspect that satisfies its rule is there. */
  lemma {:induction false} SatisfiedIsThere(c: Catalog, rule: Rule)
    requires Satisfied(rule, Current(c, AspectOf(rule)))
    requires rule.ObjectRule? ==>
      exists key :: key in rule.required.fields && rule.required.fields[key] != Null
    ensures AspectOf(rule) in c.aspects && Current(c, AspectOf(rule)) == c.aspects[AspectOf(rule)]
  {
    match rule
    case ObjectRule(_, _, required) =>
      var key :| key in required.fields && required.fields[key] != Null;
      EmptyContains(required, key);
    case InfoRule(_, title, content, parentUrn, _) =>
      EmptyContains(Expected(title, content, parentUrn), "title");
    case _ =>
  }

  lemma {:induction false} AssetChecksHold(c: Catalog, spec: Spec)
    requires NeedsNothing(c, spec)
    ensures AssetChecks(c, spec)
  {
    AssetRulesAt(c, spec);
    hide NeedsNothing, AssetRules, Satisfied, FieldsThere, EntryThere, TermInfo, UserInfo, TermCheck, UserCheck,
      OwnerEntry, TermEntry,
      Resource, Current;
    TermThere(c, spec);
    UserThere(c, spec);
    DescriptionThere(c, spec);
    ListThere(c, OwnersRule(spec, spec.sourceUrn));
    ListThere(c, TermsRule(spec, spec.sourceUrn));
    DocumentThere(c, spec);
  }

  lemma {:induction false} AssetRulesAt(c: Catalog, spec: Spec)
    requires NeedsNothing(c, spec)
    ensures Satisfied(ObjectRule(spec.termUrn, GlossaryTermInfo, TermInfo(spec)),
        Current(c, Key(spec.termUrn, GlossaryTermInfo)))
    ensures Satisfied(ObjectRule(spec.ownerUrn, CorpUserInfo, UserInfo()), Current(c, Key(spec.ownerUrn, CorpUserInfo)))
    ensures Satisfied(DescriptionRule(spec.sourceUrn, spec.assetDescription),
        Current(c, Key(spec.sourceUrn, EditableDatasetProperties)))
    ensures Satisfied(OwnersRule(spec, spec.sourceUrn), Current(c, Key(spec.sourceUrn, Ownership)))
    ensures Satisfied(TermsRule(spec, spec.sourceUrn), Current(c, Key(spec.sourceUrn, GlossaryTerms)))
    ensures Satisfied(DocumentRule(spec.sourceUrn, spec.documentUrl, spec.documentDescription),
                      Current(c, Key(spec.sourceUrn, InstitutionalMemory)))
  {
    hide Satisfied, TermInfo, UserInfo, Current;
    var rules := AssetRules(spec);
    assert Satisfied(rules[0], Current(c, AspectOf(rules[0]))) && Satisfied(rules[1], Current(c, AspectOf(rules[1])));
    assert Satisfied(rules[2], Current(c, AspectOf(rules[2]))) && Satisfied(rules[3], Current(c, AspectOf(rules[3])));
    assert Satisfied(rules[4], Current(c, AspectOf(rules[4]))) && Satisfied(rules[5], Current(c, AspectOf(rules[5])));
  }

  lemma {:induction false} TermThere(c: Catalog, spec: Spec)
    requires Satisfied(ObjectRule(spec.termUrn, GlossaryTermInfo, TermInfo(spec)),
        Current(c, Key(spec.termUrn, GlossaryTermInfo)))
    ensures FieldsThere(c, Key(spec.termUrn, GlossaryTermInfo), TermCheck(spec))
  {
    hide Satisfied, FieldsThere, Contains;
    ObjectThere(c, spec.termUrn, GlossaryTermInfo, TermInfo(spec), TermCheck(spec), "definition");
  }

  lemma {:induction false} UserThere(c: Catalog, spec: Spec)
    requires Satisfied(ObjectRule(spec.ownerUrn, CorpUserInfo, UserInfo()),
        Current(c, Key(spec.ownerUrn, CorpUserInfo)))
    ensures FieldsThere(c, Key(spec.ownerUrn, CorpUserInfo), UserCheck())
  {
    hide Satisfied, FieldsThere, Contains;
    ObjectThere(c, spec.ownerUrn, CorpUserInfo, UserInfo(), UserCheck(), "title");
  }

  lemma {:induction false} ObjectThere(c: Catalog, urn: string, name: AspectName, required: JsonMap, check: JsonMap,
        key: string)
    requires Satisfied(ObjectRule(urn, name, required), Current(c, Key(urn, name)))
    requires key in required.fields && required.fields[key] != Null
    requires forall k :: k in check.fields ==> k in required.fields && check.fields[k] == required.fields[k]
    ensures FieldsThere(c, Key(urn, name), check)
  {
    SatisfiedIsThere(c, ObjectRule(urn, name, required));
    ContainsFewer(Current(c, Key(urn, name)), required, check);
  }

  lemma {:induction false} DescriptionThere(c: Catalog, spec: Spec)
    requires var rule := DescriptionRule(spec.sourceUrn, spec.assetDescription);
        Satisfied(rule, Current(c, AspectOf(rule)))
    ensures FieldsThere(c, Key(spec.sourceUrn, EditableDatasetProperties),
        Obj(map["description" := Str(spec.assetDescription)]))
  {
    SatisfiedIsThere(c, DescriptionRule(spec.sourceUrn, spec.assetDescription));
  }

  lemma {:induction false} ListThere(c: Catalog, rule: Rule)
    requires rule.ListRule? && Satisfied(rule, Current(c, AspectOf(rule)))
    ensures EntryThere(c, AspectOf(rule), rule.listKey, rule.expected)
  {
    hide Contains;
  }

  lemma {:induction false} DocumentThere(c: Catalog, spec: Spec)
    requires var rule := DocumentRule(spec.sourceUrn, spec.documentUrl, spec.documentDescription);
             Satisfied(rule, Current(c, AspectOf(rule)))
    ensures EntryThere(c, Key(spec.sourceUrn, InstitutionalMemory), "elements",
        Resource(spec.documentUrl, spec.documentDescription))
  {
    hide Contains;
  }

  lemma {:induction false} DocumentChecksHold(c: Catalog, spec: Spec)
    requires NeedsNothing(c, spec) && ValidCatalog(c)
    ensures DocumentChecks(c, spec)
  {
    DocumentRulesAt(c, spec);
    hide NeedsNothing, DocumentRules, AssetRules, Satisfied, OwnersRule, TermsRule, DocumentInfoChecks,
      DocumentAspectChecks;
    InfoThere(c, spec);
    AspectsThere(c, spec);
  }

  lemma {:induction false} DocumentRulesAt(c: Catalog, spec: Spec)
    requires NeedsNothing(c, spec)
    ensures var urn := spec.contextDocumentUrn;
      && Satisfied(InfoRule(urn, spec.contextDocumentTitle, spec.contextDocumentContent, spec.sharedDocumentUrn,
          spec.sourceUrn),
                   Current(c, Key(urn, DocumentInfo)))
      && Satisfied(SubtypeRule(urn, "Context"), Current(c, Key(urn, SubTypes)))
      && Satisfied(SettingsRule(urn), Current(c, Key(urn, DocumentSettings)))
      && Satisfied(OwnersRule(spec, urn), Current(c, Key(urn, Ownership)))
      && Satisfied(TermsRule(spec, urn), Current(c, Key(urn, GlossaryTerms)))
      && spec.sharedDocumentUrn in c.entities
  {
    hide Satisfied, Current;
    var rules := DocumentRules(spec);
    assert Satisfied(rules[0], Current(c, AspectOf(rules[0]))) && Satisfied(rules[1], Current(c, AspectOf(rules[1])));
    assert Satisfied(rules[2], Current(c, AspectOf(rules[2]))) && Satisfied(rules[3], Current(c, AspectOf(rules[3])));
    assert Satisfied(rules[4], Current(c, AspectOf(rules[4])));
  }

  lemma {:induction false} InfoThere(c: Catalog, spec: Spec)
    requires ValidCatalog(c) && spec.sharedDocumentUrn in c.entities
    requires Satisfied(InfoRule(spec.contextDocumentUrn, spec.contextDocumentTitle, spec.contextDocumentContent,
                                spec.sharedDocumentUrn, spec.sourceUrn),
                       Current(c, Key(spec.contextDocumentUrn, DocumentInfo)))
    ensures DocumentInfoChecks(c, spec)
  {
    SatisfiedIsThere(c, InfoRule(spec.contextDocumentUrn, spec.contextDocumentTitle, spec.contextDocumentContent,
                                 spec.sharedDocumentUrn, spec.sourceUrn));
    hide Contains, SomeContains, Expected, AssetLink;
  }

  lemma {:induction false} AspectsThere(c: Catalog, spec: Spec)
    requires Satisfied(SubtypeRule(spec.contextDocumentUrn, "Context"),
        Current(c, Key(spec.contextDocumentUrn, SubTypes)))
    requires Satisfied(SettingsRule(spec.contextDocumentUrn),
        Current(c, Key(spec.contextDocumentUrn, DocumentSettings)))
    requires Satisfied(OwnersRule(spec, spec.contextDocumentUrn), Current(c, Key(spec.contextDocumentUrn, Ownership)))
    requires Satisfied(TermsRule(spec, spec.contextDocumentUrn),
        Current(c, Key(spec.contextDocumentUrn, GlossaryTerms)))
    ensures DocumentAspectChecks(c, spec)
  {
    hide FieldsThere, EntryThere, Contains, FirstWith, OwnerEntry, TermEntry;
    SettingsThere(c, spec.contextDocumentUrn);
    ListThere(c, OwnersRule(spec, spec.contextDocumentUrn));
    ListThere(c, TermsRule(spec, spec.contextDocumentUrn));
  }

  lemma {:induction false} SettingsThere(c: Catalog, urn: string)
    requires Satisfied(SettingsRule(urn), Current(c, Key(urn, DocumentSettings)))
    ensures FieldsThere(c, Key(urn, DocumentSettings), Obj(map["showInGlobalContext" := Bool(true)]))
  {
    SatisfiedIsThere(c, SettingsRule(urn));
  }

  /** Every check that verification makes of what the seeder seeds holds after a seed. */
  lemma {:induction false} SeedVerifies(c: Catalog, spec: Spec, stamp: Json)
    requires ValidCatalog(c)
    ensures AssetChecks(Seeded(c, spec, stamp), spec) && DocumentChecks(Seeded(c, spec, stamp), spec)
  {
    SeedSatisfies(c, spec, stamp);
    SeedIsValid(c, spec, stamp);
    hide Seeded, NeedsNothing, AssetChecks, DocumentChecks, ValidCatalog;
    AssetChecksHold(Seeded(c, spec, stamp), spec);
    DocumentChecksHold(Seeded(c, spec, stamp), spec);
  }

  lemma {:induction false} UpstreamsStay(c: Catalog, spec: Spec, stamp: Json, urn: string)
    ensures Current(Seeded(c, spec, stamp), Key(urn, UpstreamLineage)) == Current(c, Key(urn, UpstreamLineage))
    ensures c.entities <= Seeded(c, spec, stamp).entities && (ValidCatalog(c) ==> ValidCatalog(Seeded(c, spec, stamp)))
  {
    NoLineageRule(spec, urn);
    SeedKeepsOthers(c, spec, stamp, Key(urn, UpstreamLineage));
    hide Seeded, ValidCatalog;
    SameCurrent(Seeded(c, spec, stamp), c, Key(urn, UpstreamLineage));
  }

  /** The datasets and their lineage stay as they were, and so does validity. */
  lemma {:induction false} SeedIsValid(c: Catalog, spec: Spec, stamp: Json)
    ensures ValidCatalog(c) ==> ValidCatalog(Seeded(c, spec, stamp))
    ensures DatasetsThere(c, spec) ==> DatasetsThere(Seeded(c, spec, stamp), spec)
    ensures LineageThere(Seeded(c, spec, stamp), spec) <==> LineageThere(c, spec)
  {
    hide Seeded, ValidCatalog, Current, SomeContains, Items;
    UpstreamsStay(c, spec, stamp, spec.dbtSourceUrn);
    UpstreamsStay(c, spec, stamp, spec.stagingUrn);
    UpstreamsStay(c, spec, stamp, spec.stagingTargetUrn);
    UpstreamsStay(c, spec, stamp, spec.martUrn);
  }

  lemma {:induction false} NoLineageRule(spec: Spec, urn: string)
    ensures NoneAbout(AssetRules(spec), Key(urn, UpstreamLineage))
        && NoneAbout(DocumentRules(spec), Key(urn, UpstreamLineage))
  {
    AssetRulesAre(spec);
    DocumentRulesAre(spec);
    RuleCounts(spec);
    hide AspectOf, AssetRules, DocumentRules;
    forall rule | rule in AssetRules(spec) ensures AspectOf(rule).name != UpstreamLineage {
      var i :| 0 <= i < |AssetRules(spec)| && AssetRules(spec)[i] == rule;
      assert ASSET_ASPECTS[i] != UpstreamLineage;
    }
    forall rule | rule in DocumentRules(spec) ensures AspectOf(rule).name != UpstreamLineage {
      var i :| 0 <= i < |DocumentRules(spec)| && DocumentRules(spec)[i] == rule;
      assert DOCUMENT_ASPECTS[i] != UpstreamLineage;
    }
  }
}
