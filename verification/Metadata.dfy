/** Nested metadata values, and laying required fields over them. */
module Metadata {
  import opened Model

  datatype Json =
    | Null
    | Str(text: string)
    | Bool(flag: bool)
    | Num(number: int)
    | List(items: seq<Json>)
    | Obj(fields: map<string, Json>)

  type JsonMap = o: Json | o.Obj? witness Obj(map[])

  /** `dict.get`: an absent field reads as null. */
  function Get(o: Json, key: string): Json {
    if o.Obj? && key in o.fields then o.fields[key] else Null
  }

  function Items(o: Json, key: string): seq<Json> {
    if Get(o, key).List? then Get(o, key).items else []
  }

  /** Every required field is there with its value, maps compared field by field. */
  predicate Contains(actual: Json, expected: Json)
    decreases expected
  {
    && actual.Obj? && expected.Obj?
    && forall key :: key in expected.fields ==>
         var e := expected.fields[key];
         if e.Obj? then Contains(Get(actual, key), e) else Get(actual, key) == e
  }

  /** The current fields, overlaid with the required ones at every map level. */
  function Merge(current: Json, required: Json): (merged: Json)
    requires current.Obj? && required.Obj?
    ensures merged.Obj?
    decreases required
  {
    Obj(map key | key in current.fields.Keys + required.fields.Keys :: MergedField(current, required, key))
  }

  function MergedField(current: Json, required: Json, key: string): Json
    requires current.Obj? && required.Obj? && key in current.fields.Keys + required.fields.Keys
    decreases required, 0
  {
    if key !in required.fields then current.fields[key]
    else
      var r := required.fields[key];
      if r.Obj? && Get(current, key).Obj? then Merge(Get(current, key), r) else r
  }

  /** No required value is null, at any map level. */
  predicate NullFree(o: Json)
    requires o.Obj?
  {
    forall key :: key in o.fields ==>
      o.fields[key] != Null && (o.fields[key].Obj? ==> NullFree(o.fields[key]))
  }

  lemma {:induction false} ContainsItself(o: Json)
    requires o.Obj?
    ensures Contains(o, o)
  {
    forall key | key in o.fields && o.fields[key].Obj? ensures Contains(o.fields[key], o.fields[key]) {
      ContainsItself(o.fields[key]);
    }
  }

  /** What is merged in is contained. */
  lemma {:induction false} MergeContains(current: Json, required: Json)
    requires current.Obj? && required.Obj?
    ensures Contains(Merge(current, required), required)
    decreases required
  {
    var merged := Merge(current, required);
    forall key | key in required.fields && required.fields[key].Obj?
      ensures Contains(Get(merged, key), required.fields[key])
    {
      var r := required.fields[key];
      assert merged.fields[key] == MergedField(current, required, key);
      if Get(current, key).Obj? {
        MergeContains(Get(current, key), r);
      } else {
        ContainsItself(r);
      }
    }
  }

  /** Merging null-free requirements changes nothing exactly when they are met already. */
  lemma {:induction false} MergeFixes(current: Json, required: Json)
    requires current.Obj? && required.Obj? && NullFree(required)
    ensures Merge(current, required) == current <==> Contains(current, required)
    decreases required
  {
    var merged := Merge(current, required);
    MergeContains(current, required);
    if Contains(current, required) {
      forall key | key in merged.fields ensures key in current.fields && merged.fields[key] == current.fields[key] {
        assert merged.fields[key] == MergedField(current, required, key);
        if key in required.fields {
          var r := required.fields[key];
          if r.Obj? {
            assert Contains(Get(current, key), r);
            MergeFixes(Get(current, key), r);
          }
        }
      }
      assert merged.fields.Keys == current.fields.Keys;
      assert merged.fields == current.fields;
    }
  }

  /** Every field of `before` that `touched` does not name is in `after` unchanged, at every map
      level that both name as a map. */
  predicate KeepsUnknown(before: Json, after: Json, touched: Json)
    requires before.Obj? && touched.Obj?
    decreases touched
  {
    && after.Obj?
    && forall key :: key in before.fields ==>
         && key in after.fields
         && (key !in touched.fields ==> after.fields[key] == before.fields[key])
         && (key in touched.fields && touched.fields[key].Obj? && before.fields[key].Obj? ==>
             KeepsUnknown(before.fields[key], after.fields[key], touched.fields[key]))
  }

  lemma {:induction false} KeepsItself(o: Json, touched: Json)
    requires o.Obj? && touched.Obj?
    ensures KeepsUnknown(o, o, touched)
    decreases touched
  {
    forall key | key in o.fields && key in touched.fields && touched.fields[key].Obj? && o.fields[key].Obj?
      ensures KeepsUnknown(o.fields[key], o.fields[key], touched.fields[key])
    {
      KeepsItself(o.fields[key], touched.fields[key]);
    }
  }

  /** A merge keeps every unknown field, however deep. */
  lemma {:induction false} MergeKeepsUnknown(current: Json, required: Json)
    requires current.Obj? && required.Obj?
    ensures KeepsUnknown(current, Merge(current, required), required)
    decreases required
  {
    var merged := Merge(current, required);
    forall key | key in current.fields && key in required.fields && required.fields[key].Obj?
        && current.fields[key].Obj?
      ensures KeepsUnknown(current.fields[key], merged.fields[key], required.fields[key])
    {
      assert merged.fields[key] == MergedField(current, required, key);
      MergeKeepsUnknown(current.fields[key], required.fields[key]);
    }
  }

  /** The overlay, done for all keys but those left. */
  ghost predicate Overlaid(current: Json, required: Json, fields: map<string, Json>, left: set<string>)
    requires current.Obj? && required.Obj?
  {
    && left <= required.fields.Keys
    && fields.Keys == current.fields.Keys + (required.fields.Keys - left)
    && (forall key :: key in fields && key in left ==> fields[key] == current.fields[key])
    && (forall key :: key in fields && key !in left ==> fields[key] == MergedField(current, required, key))
  }

  lemma {:induction false} OverlaidStep(current: Json, required: Json, fields: map<string, Json>, left: set<string>,
        key: string, value: Json)
    requires current.Obj? && required.Obj? && Overlaid(current, required, fields, left) && key in left
    requires value == MergedField(current, required, key)
    ensures Overlaid(current, required, fields[key := value], left - {key})
  {
    hide MergedField;
  }

  lemma {:induction false} OverlaidAll(current: Json, required: Json, fields: map<string, Json>)
    requires current.Obj? && required.Obj? && Overlaid(current, required, fields, {})
    ensures Obj(fields) == Merge(current, required)
  {
    hide MergedField;
    assert fields == Merge(current, required).fields;
  }

  /** The overlay, key by key on a copy. */
  method MergeRequired(current: Json, required: Json) returns (updated: Json)
    requires current.Obj? && required.Obj?
    ensures updated == Merge(current, required)
    decreases required
  {
    hide Merge, Overlaid;
    var fields := current.fields;
    var left := required.fields.Keys;
    assert Overlaid(current, required, fields, left) by { OverlaidNone(current, required); }
    while left != {}
      invariant Overlaid(current, required, fields, left) && left <= required.fields.Keys
      decreases |left|
    {
      var key :| key in left;
      var value := required.fields[key];
      OverlaidGet(current, required, fields, left, key);
      if value.Obj? && key in fields && fields[key].Obj? {
        value := MergeRequired(fields[key], value);
      }
      OverlaidStep(current, required, fields, left, key, value);
      fields := fields[key := value];
      left := left - {key};
    }
    updated := Obj(fields);
    OverlaidAll(current, required, fields);
  }

  lemma {:induction false} OverlaidNone(current: Json, required: Json)
    requires current.Obj? && required.Obj?
    ensures Overlaid(current, required, current.fields, required.fields.Keys)
  {
  }

  lemma {:induction false} OverlaidGet(current: Json, required: Json, fields: map<string, Json>, left: set<string>,
        key: string)
    requires current.Obj? && required.Obj? && Overlaid(current, required, fields, left) && key in left
    ensures key in fields <==> key in current.fields
    ensures key in fields ==> fields[key] == current.fields[key]
  {
    hide MergedField;
  }

  /** Containing a larger requirement contains a smaller one. */
  lemma {:induction false} ContainsFewer(actual: Json, expected: Json, fewer: Json)
    requires Contains(actual, expected) && fewer.Obj?
    requires forall key :: key in fewer.fields ==> key in expected.fields && fewer.fields[key] == expected.fields[key]
    ensures Contains(actual, fewer)
  {
  }

  /** The first entry whose field has this value; the length of the list if there is none. */
  function FirstWith(entries: seq<Json>, key: string, value: Json): (i: nat)
    ensures i <= |entries|
    ensures forall j :: 0 <= j < i ==> Get(entries[j], key) != value
    ensures i < |entries| ==> Get(entries[i], key) == value
  {
    if entries == [] || Get(entries[0], key) == value then 0 else 1 + FirstWith(entries[1..], key, value)
  }

  lemma {:induction false} FirstIsUnique(entries: seq<Json>, key: string, value: Json, i: nat)
    requires i <= |entries| && forall j :: 0 <= j < i ==> Get(entries[j], key) != value
    requires i < |entries| ==> Get(entries[i], key) == value
    ensures FirstWith(entries, key, value) == i
  {
  }

  /** `x or default` for a field. */
  predicate Truthy(o: Json) {
    match o
    case Null => false
    case Str(text) => text != ""
    case Bool(flag) => flag
    case Num(number) => number != 0
    case List(items) => items != []
    case Obj(fields) => fields != map[]
  }
}
