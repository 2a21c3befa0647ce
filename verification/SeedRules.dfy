/** What the seeder requires of each metadata aspect, and how it makes an aspect meet it. */
module SeedRules {
  import opened Model
  import opened Metadata

  /** The aspects the catalog client knows. */
  datatype AspectName =
    | CorpUserInfo
    | DocumentInfo
    | DocumentSettings
    | EditableDatasetProperties
    | GlossaryTermInfo
    | GlossaryTerms
    | InstitutionalMemory
    | Ownership
    | SubTypes
    | UpstreamLineage

  datatype Key = Key(urn: string, name: AspectName)

  datatype Rule =
    | ObjectRule(urn: string, name: AspectName, required: JsonMap)
    | DescriptionRule(urn: string, text: string)
    | ListRule(urn: string, name: AspectName, listKey: string, expected: JsonMap, identityKey: string, stampKey: string)
    | DocumentRule(urn: string, url: string, description: string)
    | InfoRule(urn: string, title: string, content: string, parentUrn: string, assetUrn: string)
    | SubtypeRule(urn: string, subtype: string)
    | SettingsRule(urn: string)

  function AspectOf(rule: Rule): Key {
    match rule
    case ObjectRule(urn, name, _) => Key(urn, name)
    case DescriptionRule(urn, _) => Key(urn, EditableDatasetProperties)
    case ListRule(urn, name, _, _, _, _) => Key(urn, name)
    case DocumentRule(urn, _, _) => Key(urn, InstitutionalMemory)
    case InfoRule(urn, _, _, _, _) => Key(urn, DocumentInfo)
    case SubtypeRule(urn, _) => Key(urn, SubTypes)
    case SettingsRule(urn) => Key(urn, DocumentSettings)
  }

  /** A list rule names its entry by a text field of the entry. */
  ghost predicate WellFormed(rule: Rule) {
    match rule
    case ListRule(_, _, listKey, expected, identityKey, stampKey) =>
      identityKey in expected.fields && expected.fields[identityKey].Str? && listKey != stampKey
    case _ => true
  }

  function Resource(url: string, description: string): JsonMap {
    Obj(map["url" := Str(url), "description" := Str(description)])
  }

  function Expected(title: string, content: string, parentUrn: string): JsonMap {
    Obj(map[
      "title" := Str(title),
      "source" := Obj(map["sourceType" := Str("NATIVE")]),
      "status" := Obj(map["state" := Str("PUBLISHED")]),
      "contents" := Obj(map["text" := Str(content)]),
      "parentDocument" := Obj(map["document" := Str(parentUrn)])])
  }

  function AssetLink(urn: string): JsonMap {
    Obj(map["asset" := Str(urn)])
  }

  predicate SomeContains(items: seq<Json>, expected: Json) {
    exists i :: 0 <= i < |items| && Contains(items[i], expected)
  }

  /** The aspect needs nothing. */
  predicate Satisfied(rule: Rule, current: Json) {
    match rule
    case ObjectRule(_, _, required) => Contains(current, required)
    case DescriptionRule(_, text) => Get(current, "description") == Str(text)
    case ListRule(_, _, listKey, expected, identityKey, _) =>
      var entries := Items(current, listKey);
      var i := FirstWith(entries, identityKey, Get(expected, identityKey));
      i < |entries| && Contains(entries[i], expected)
    case DocumentRule(_, url, description) =>
      var entries := Items(current, "elements");
      var i := FirstWith(entries, "url", Str(url));
      i < |entries| && Contains(entries[i], Resource(url, description))
    case InfoRule(_, title, content, parentUrn, assetUrn) =>
      Contains(current, Expected(title, content, parentUrn))
      && SomeContains(Items(current, "relatedAssets"), AssetLink(assetUrn))
    case SubtypeRule(_, subtype) => Str(subtype) in Items(current, "typeNames")
    case SettingsRule(_) => Get(current, "showInGlobalContext") == Bool(true)
  }

  /** `dict.setdefault`. */
  function WithDefault(fields: map<string, Json>, key: string, value: Json): map<string, Json> {
    if key in fields then fields else fields[key := value]
  }

  function UpdatedEntry(entry: Json, url: string, description: string, stamp: Json): Json {
    var fields := if entry.Obj? then entry.fields else map[];
    Obj(fields["url" := Str(url)]["description" := Str(description)]
        ["createStamp" := if Truthy(Get(entry, "createStamp")) then Get(entry, "createStamp") else stamp]
        ["updateStamp" := stamp])
  }

  /** The list with its entry for the identity merged in place, or appended. */
  function WithEntry(entries: seq<Json>, expected: JsonMap, identityKey: string): seq<Json>
  {
    var i := FirstWith(entries, identityKey, Get(expected, identityKey));
    if i == |entries| then entries + [expected]
    else if entries[i].Obj? then entries[i := Merge(entries[i], expected)]
    else entries[i := expected]
  }

  function WithResource(entries: seq<Json>, url: string, description: string, stamp: Json): seq<Json> {
    var i := FirstWith(entries, "url", Str(url));
    if i == |entries| then entries + [UpdatedEntry(Obj(map[]), url, description, stamp)]
    else entries[i := UpdatedEntry(entries[i], url, description, stamp)]
  }

  function WithLink(entries: seq<Json>, link: Json): seq<Json> {
    if SomeContains(entries, link) then entries else entries + [link]
  }

  /** What the seeder emits for an aspect that needs something. */
  function Updated(rule: Rule, current: Json, stamp: Json): (updated: Json)
    requires current.Obj?
    ensures updated.Obj?
  {
    match rule
    case ObjectRule(_, _, required) => Merge(current, required)
    case DescriptionRule(_, text) =>
      Obj(WithDefault(current.fields, "created", stamp)["lastModified" := stamp]["description" := Str(text)])
    case ListRule(_, _, listKey, expected, identityKey, stampKey) =>
      Obj(current.fields[listKey := List(WithEntry(Items(current, listKey), expected, identityKey))][stampKey := stamp])
    case DocumentRule(_, url, description) =>
      Obj(current.fields["elements" := List(WithResource(Items(current, "elements"), url, description, stamp))])
    case InfoRule(_, title, content, parentUrn, assetUrn) =>
      var fields := current.fields + Expected(title, content, parentUrn).fields;
      var defaulted := WithDefault(WithDefault(fields, "customProperties", Obj(map[])), "created", stamp);
      Obj(defaulted["lastModified" := stamp]
          ["relatedAssets" := List(WithLink(Items(current, "relatedAssets"), AssetLink(assetUrn)))])
    case SubtypeRule(_, subtype) =>
      Obj(current.fields["typeNames" := List(Items(current, "typeNames") + [Str(subtype)])])
    case SettingsRule(_) =>
      Obj(current.fields["showInGlobalContext" := Bool(true)]["lastModified" := stamp])
  }

  // ---- An update meets its rule ----

  lemma {:induction false} EntryIsThere(entries: seq<Json>, expected: JsonMap, identityKey: string)
    requires identityKey in expected.fields && expected.fields[identityKey].Str?
    ensures var after := WithEntry(entries, expected, identityKey);
            var i := FirstWith(after, identityKey, Get(expected, identityKey));
            i < |after| && Contains(after[i], expected)
  {
    var i := FirstWith(entries, identityKey, Get(expected, identityKey));
    var after := WithEntry(entries, expected, identityKey);
    ContainsItself(expected);
    if i < |entries| {
      MergeContains(entries[i], expected);
    }
    hide Merge, Contains;
    assert Get(after[i], identityKey) == Get(expected, identityKey)
        by { ContainedField(after[i], expected, identityKey); }
    FirstIsUnique(after, identityKey, Get(expected, identityKey), i);
  }

  lemma {:induction false} ContainedField(actual: Json, expected: Json, key: string)
    requires Contains(actual, expected) && key in expected.fields && !expected.fields[key].Obj?
    ensures Get(actual, key) == expected.fields[key]
  {
  }

  lemma {:induction false} ResourceIsThere(entries: seq<Json>, url: string, description: string, stamp: Json)
    ensures var after := WithResource(entries, url, description, stamp);
            var i := FirstWith(after, "url", Str(url));
            i < |after| && Contains(after[i], Resource(url, description))
  {
    var i := FirstWith(entries, "url", Str(url));
    var after := WithResource(entries, url, description, stamp);
    FirstIsUnique(after, "url", Str(url), i);
  }

  /** Whatever the aspect was, once updated it satisfies its rule. */
  lemma {:induction false} UpdateSatisfies(rule: Rule, current: Json, stamp: Json)
    requires WellFormed(rule) && current.Obj?
    ensures Satisfied(rule, Updated(rule, current, stamp))
  {
    match rule
    case ObjectRule(_, _, required) => MergeContains(current, required);
    case ListRule(_, _, listKey, expected, identityKey, _) =>
      EntryIsThere(Items(current, listKey), expected, identityKey);
    case DocumentRule(_, url, description) =>
      ResourceIsThere(Items(current, "elements"), url, description, stamp);
    case InfoRule(_, title, content, parentUrn, assetUrn) =>
      InfoIsThere(title, content, parentUrn, assetUrn, rule.urn, current, stamp);
    case _ =>
  }

  lemma {:induction false} InfoIsThere(title: string, content: string, parentUrn: string, assetUrn: string,
        urn: string, current: Json, stamp: Json)
    requires current.Obj?
    ensures Satisfied(InfoRule(urn, title, content, parentUrn, assetUrn),
                      Updated(InfoRule(urn, title, content, parentUrn, assetUrn), current, stamp))
  {
    var rule := InfoRule(urn, title, content, parentUrn, assetUrn);
    var updated := Updated(rule, current, stamp);
    var expected := Expected(title, content, parentUrn);
    InfoFields(rule, current, stamp);
    InfoLinks(rule, current, stamp);
    hide Updated, Touched, Expected, WithLink, Items, AssetLink;
    ContainsItself(expected);
    forall key | key in expected.fields && expected.fields[key].Obj?
        ensures Contains(Get(updated, key), expected.fields[key]) {
      ContainsItself(expected.fields[key]);
    }
    LinkIsThere(Items(current, "relatedAssets"), AssetLink(assetUrn));
  }

  lemma {:induction false} InfoLinks(rule: Rule, current: Json, stamp: Json)
    requires rule.InfoRule? && current.Obj?
    ensures Items(Updated(rule, current, stamp), "relatedAssets")
            == WithLink(Items(current, "relatedAssets"), AssetLink(rule.assetUrn))
  {
    hide WithLink, AssetLink, Expected;
  }

  lemma {:induction false} LinkIsThere(entries: seq<Json>, link: Json)
    requires link.Obj?
    ensures SomeContains(WithLink(entries, link), link)
  {
    ContainsItself(link);
    if !SomeContains(entries, link) {
      assert WithLink(entries, link)[|entries|] == link;
    }
  }

  // ---- What an update leaves alone ----

  /** The fields a rule takes charge of; a nested map names what it takes charge of inside. */
  function Touched(rule: Rule): (touched: Json)
    ensures touched.Obj?
  {
    match rule
    case ObjectRule(_, _, required) => required
    case DescriptionRule(_, _) => Obj(map["lastModified" := Null, "description" := Null])
    case ListRule(_, _, listKey, _, _, stampKey) => Obj(map[listKey := Null, stampKey := Null])
    case DocumentRule(_, _, _) => Obj(map["elements" := Null])
    case InfoRule(_, title, content, parentUrn, _) =>
      Obj(Expected(title, content, parentUrn).fields["lastModified" := Null]["relatedAssets" := Null])
    case SubtypeRule(_, _) => Obj(map["typeNames" := Null])
    case SettingsRule(_) => Obj(map["showInGlobalContext" := Null, "lastModified" := Null])
  }

  /** The document's own maps hold no field beyond the required ones. */
  ghost predicate NestedPlain(current: Json, expected: Json)
    requires current.Obj? && expected.Obj?
  {
    forall key :: key in current.fields && key in expected.fields && expected.fields[key].Obj?
                  && current.fields[key].Obj? ==>
      current.fields[key].fields.Keys <= expected.fields[key].fields.Keys
  }

  lemma {:induction false} FlatKeeps(before: Json, flat: Json)
    requires before.Obj? && flat.Obj? && forall key :: key in flat.fields ==> !flat.fields[key].Obj?
    ensures KeepsUnknown(before, flat, flat) <==> before.fields.Keys <= flat.fields.Keys
  {
  }

  /** The context document is written with `update`, not merged: it loses nothing unknown exactly
      when its nested maps hold nothing unknown. */
  lemma {:induction false} InfoKeepsUnknown(urn: string, title: string, content: string, parentUrn: string,
        assetUrn: string, current: Json, stamp: Json)
    requires current.Obj?
    ensures var rule := InfoRule(urn, title, content, parentUrn, assetUrn);
            KeepsUnknown(current, Updated(rule, current, stamp), Touched(rule))
            <==> NestedPlain(current, Expected(title, content, parentUrn))
  {
    var rule := InfoRule(urn, title, content, parentUrn, assetUrn);
    var updated := Updated(rule, current, stamp);
    var expected := Expected(title, content, parentUrn);
    var touched := Touched(rule);
    InfoFields(rule, current, stamp);
    ExpectedIsFlat(title, content, parentUrn);
    hide Updated, Touched, Expected;
    forall key | key in current.fields && key in expected.fields && expected.fields[key].Obj?
        && current.fields[key].Obj?
      ensures KeepsUnknown(current.fields[key], updated.fields[key], touched.fields[key])
              <==> current.fields[key].fields.Keys <= expected.fields[key].fields.Keys
    {
      FlatKeeps(current.fields[key], expected.fields[key]);
    }
    hide KeepsUnknown;
    KeepsByKey(current, updated, touched, expected);
  }

  /** A map whose own maps hold no further map. */
  ghost predicate FlatMaps(o: Json)
    requires o.Obj?
  {
    forall key, inner :: key in o.fields && o.fields[key].Obj? && inner in o.fields[key].fields ==>
      !o.fields[key].fields[inner].Obj?
  }

  lemma {:induction false} ExpectedIsFlat(title: string, content: string, parentUrn: string)
    ensures FlatMaps(Expected(title, content, parentUrn))
  {
  }

  lemma {:induction false} InfoFields(rule: Rule, current: Json, stamp: Json)
    requires rule.InfoRule? && current.Obj?
    ensures var updated := Updated(rule, current, stamp);
            var expected := Expected(rule.title, rule.content, rule.parentUrn);
            var touched := Touched(rule);
            && current.fields.Keys <= updated.fields.Keys
            && (forall key :: key in current.fields && key !in touched.fields ==>
                updated.fields[key] == current.fields[key])
            && (forall key :: key in expected.fields ==>
                key in updated.fields && key in touched.fields
                && updated.fields[key] == expected.fields[key] == touched.fields[key])
            && (forall key :: key in touched.fields && touched.fields[key].Obj?
                              <==> key in expected.fields && expected.fields[key].Obj?)
  {
    InfoOverlays(rule, current, stamp);
    ExpectedNames(rule.title, rule.content, rule.parentUrn);
    hide Items, WithLink, AssetLink, Updated, Expected;
  }

  lemma {:induction false} ExpectedNames(title: string, content: string, parentUrn: string)
    ensures Expected(title, content, parentUrn).Obj?
    ensures var fields := Expected(title, content, parentUrn).fields;
            "lastModified" !in fields && "relatedAssets" !in fields && "customProperties" !in fields
            && "created" !in fields
  {
  }

  /** What the update makes of the fields it requires, and which others it leaves. */
  lemma {:induction false} InfoOverlays(rule: Rule, current: Json, stamp: Json)
    requires rule.InfoRule? && current.Obj?
    ensures var updated := Updated(rule, current, stamp);
            var expected := Expected(rule.title, rule.content, rule.parentUrn);
            && current.fields.Keys <= updated.fields.Keys
            && (forall key :: key in expected.fields ==>
                key in updated.fields && updated.fields[key] == expected.fields[key])
            && (forall key ::
                key in current.fields && key !in expected.fields && key !in {"lastModified", "relatedAssets"} ==>
                updated.fields[key] == current.fields[key])
  {
    ExpectedNames(rule.title, rule.content, rule.parentUrn);
    hide Items, WithLink, AssetLink, Expected;
  }

  lemma {:induction false} KeepsByKey(before: Json, after: Json, touched: Json, expected: Json)
    requires before.Obj? && after.Obj? && touched.Obj? && expected.Obj? && before.fields.Keys <= after.fields.Keys
    requires forall key :: key in before.fields && key !in touched.fields ==> after.fields[key] == before.fields[key]
    requires forall key :: key in touched.fields && touched.fields[key].Obj?
                           <==> key in expected.fields && expected.fields[key].Obj?
    requires forall key :: key in before.fields && key in expected.fields && expected.fields[key].Obj?
                           && before.fields[key].Obj? ==>
               (KeepsUnknown(before.fields[key], after.fields[key], touched.fields[key])
                <==> before.fields[key].fields.Keys <= expected.fields[key].fields.Keys)
    ensures KeepsUnknown(before, after, touched) <==> NestedPlain(before, expected)
  {
  }

  /** An external source record is lost when the document is written again. */
  lemma {:induction false} InfoCanLoseFields(stamp: Json)
    ensures var rule := InfoRule("doc", "t", "c", "p", "a");
            var current := Obj(map["source" := Obj(map["sourceType" := Str("NATIVE"), "externalUrl" := Str("x")])]);
            && !Satisfied(rule, current)
            && Get(Get(Updated(rule, current, stamp), "source"), "externalUrl") == Null
            && !KeepsUnknown(current, Updated(rule, current, stamp), Touched(rule))
  {
    var rule := InfoRule("doc", "t", "c", "p", "a");
    var source := Obj(map["sourceType" := Str("NATIVE"), "externalUrl" := Str("x")]);
    var current := Obj(map["source" := source]);
    InfoKeepsUnknown("doc", "t", "c", "p", "a", current, stamp);
    InfoFields(rule, current, stamp);
    hide Updated, Touched, KeepsUnknown, WithLink, Items;
    var expected := Expected("t", "c", "p");
    assert "externalUrl" in current.fields["source"].fields.Keys;
    assert "externalUrl" !in expected.fields["source"].fields.Keys;
    assert Get(current, "title") != expected.fields["title"];
    assert Get(Updated(rule, current, stamp), "source") == expected.fields["source"];
  }

  /** Every other rule keeps every unknown field at every map level. */
  lemma {:induction false} UpdateKeepsUnknown(rule: Rule, current: Json, stamp: Json)
    requires WellFormed(rule) && current.Obj? && !rule.InfoRule?
    ensures KeepsUnknown(current, Updated(rule, current, stamp), Touched(rule))
  {
    if rule.ObjectRule? {
      MergeKeepsUnknown(current, rule.required);
    } else {
      hide WithEntry, WithResource, Items, KeepsUnknown;
      OnlyTouched(current, Updated(rule, current, stamp), Touched(rule));
    }
  }

  lemma {:induction false} OnlyTouched(before: Json, after: Json, touched: Json)
    requires before.Obj? && after.Obj? && touched.Obj? && before.fields.Keys <= after.fields.Keys
    requires forall key :: key in touched.fields ==> !touched.fields[key].Obj?
    requires forall key :: key in before.fields && key !in touched.fields ==> after.fields[key] == before.fields[key]
    ensures KeepsUnknown(before, after, touched)
  {
  }

  /** What becomes of a rule's list: every entry keeps its place, and all but the one the rule is
      about keep their value; that one keeps its unknown fields. */
  ghost predicate ListKept(rule: Rule, before: seq<Json>, after: seq<Json>)
    requires WellFormed(rule)
  {
    match rule
    case ListRule(_, _, _, expected, identityKey, _) =>
      var i := FirstWith(before, identityKey, Get(expected, identityKey));
      && |before| <= |after|
      && (forall j :: 0 <= j < |before| && j != i ==> after[j] == before[j])
      && (i < |before| && before[i].Obj? ==> KeepsUnknown(before[i], after[i], expected))
    case DocumentRule(_, url, description) =>
      var i := FirstWith(before, "url", Str(url));
      && |before| <= |after|
      && (forall j :: 0 <= j < |before| && j != i ==> after[j] == before[j])
      && (i < |before| && before[i].Obj? ==>
          KeepsUnknown(before[i], after[i],
              Obj(Resource(url, description).fields["createStamp" := Null]["updateStamp" := Null])))
    case _ => before <= after
  }

  function ListOf(rule: Rule, current: Json): seq<Json> {
    match rule
    case ListRule(_, _, listKey, _, _, _) => Items(current, listKey)
    case DocumentRule(_, _, _) => Items(current, "elements")
    case InfoRule(_, _, _, _, _) => Items(current, "relatedAssets")
    case SubtypeRule(_, _) => Items(current, "typeNames")
    case _ => []
  }

  lemma {:induction false} UpdateKeepsEntries(rule: Rule, current: Json, stamp: Json)
    requires WellFormed(rule) && current.Obj?
    ensures ListKept(rule, ListOf(rule, current), ListOf(rule, Updated(rule, current, stamp)))
  {
    match rule
    case ListRule(_, _, listKey, expected, identityKey, _) =>
      EntryKeepsOthers(rule, Items(current, listKey));
      hide WithEntry, ListKept;
    case DocumentRule(_, url, description) =>
      ResourceKeepsOthers(rule, Items(current, "elements"), stamp);
      hide WithResource, ListKept;
    case _ =>
      hide SomeContains, Expected, AssetLink, Merge;
  }

  lemma {:induction false} EntryKeepsOthers(rule: Rule, entries: seq<Json>)
    requires WellFormed(rule) && rule.ListRule?
    ensures ListKept(rule, entries, WithEntry(entries, rule.expected, rule.identityKey))
  {
    var i := FirstWith(entries, rule.identityKey, Get(rule.expected, rule.identityKey));
    if i < |entries| && entries[i].Obj? {
      MergeKeepsUnknown(entries[i], rule.expected);
    }
    hide Merge, KeepsUnknown;
  }

  lemma {:induction false} ResourceKeepsOthers(rule: Rule, entries: seq<Json>, stamp: Json)
    requires WellFormed(rule) && rule.DocumentRule?
    ensures ListKept(rule, entries, WithResource(entries, rule.url, rule.description, stamp))
  {
    var i := FirstWith(entries, "url", Str(rule.url));
    if i < |entries| && entries[i].Obj? {
      OnlyTouched(entries[i], UpdatedEntry(entries[i], rule.url, rule.description, stamp),
                  Obj(Resource(rule.url, rule.description).fields["createStamp" := Null]["updateStamp" := Null]));
    }
    hide KeepsUnknown;
  }
}
