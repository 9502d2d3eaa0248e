// Canonical payment metadata (sdk/src/metadata.ts): undefined object fields are left out, keys sorted.
module Metadata {
  import opened Prelude
  import opened CanonicalValues
  import opened Canonical

  /** The value without its undefined object fields, at every depth. */
  function Defined(v: Value): Value
    decreases v
  {
    match v
    case Arr(items) => Arr(seq(|items|, i requires 0 <= i < |items| => Defined(items[i])))
    case Obj(fields) => Obj(DefinedFields(fields))
    case _ => v
  }

  function DefinedFields(fields: seq<Field>): seq<Field>
    decreases fields
  {
    if fields == [] then []
    else DefinedField(fields[0]) + DefinedFields(fields[1..])
  }

  function DefinedField(f: Field): seq<Field>
    decreases f
  {
    if f.value.Undefined? then [] else [Field(f.key, Defined(f.value))]
  }

  /** normalizeValue. */
  method NormalizeValue(leq: KeyOrder, v: Value) returns (r: Value)
    requires TotalOrder(leq) && WellFormed(v)
    ensures r == Normalize(leq, Defined(v))
    decreases v, 1
  {
    hide TotalOrder;
    match v
    case Arr(items) =>
      var normalized := NormalizeItems(leq, items);
      r := Arr(normalized);
      assert normalized == Normalize(leq, Defined(v)).items;
    case Obj(fields) =>
      var normalized := NormalizeFields(leq, fields);
      r := Obj(normalized);
    case _ => r := v;
  }

  method NormalizeItems(leq: KeyOrder, items: seq<Value>) returns (normalized: seq<Value>)
    requires TotalOrder(leq) && WellFormed(Arr(items))
    ensures |normalized| == |items|
    ensures forall k :: 0 <= k < |items| ==> normalized[k] == Normalize(leq, Defined(items[k]))
    decreases items, 0
  {
    hide TotalOrder, Normalize, Defined;
    normalized := [];
    for i := 0 to |items|
      invariant |normalized| == i
      invariant forall k :: 0 <= k < i ==> normalized[k] == Normalize(leq, Defined(items[k]))
    {
      var entry := NormalizeValue(leq, items[i]);
      normalized := normalized + [entry];
    }
  }

  method NormalizeFields(leq: KeyOrder, fields: seq<Field>) returns (normalized: seq<Field>)
    requires TotalOrder(leq) && WellFormed(Obj(fields))
    ensures normalized == NormalFields(leq, SortFields(leq, DefinedFields(fields)))
    decreases fields, 0
  {
    hide TotalOrder, Normalize, Defined, DefinedFields, SortFields;
    var sorted := SortFields(leq, fields);
    normalized := [];
    DefinedNothing();
    for i := 0 to |sorted|
      invariant normalized == NormalFields(leq, DefinedFields(sorted[..i]))
    {
      var field := sorted[i];
      assert field in fields;
      DefinedAppend(sorted[..i], field);
      assert sorted[..i + 1] == sorted[..i] + [field];
      if !field.value.Undefined? {
        var entry := NormalizeValue(leq, field.value);
        normalized := normalized + [Field(field.key, entry)];
      }
    }
    assert sorted[..|sorted|] == sorted;
    SortDefined(leq, fields);
  }

  lemma DefinedNothing()
    ensures DefinedFields([]) == []
  {
  }

  function NormalFields(leq: KeyOrder, fields: seq<Field>): seq<Field> {
    seq(|fields|, i requires 0 <= i < |fields| => Field(fields[i].key, Normalize(leq, fields[i].value)))
  }

  lemma {:induction false} DefinedAppend(fields: seq<Field>, f: Field)
    ensures DefinedFields(fields + [f]) == DefinedFields(fields) + DefinedField(f)
  {
    if fields != [] {
      assert (fields + [f])[1..] == fields[1..] + [f];
      DefinedAppend(fields[1..], f);
    }
  }

  // ---- Leaving fields out and sorting commute ----------------------------------------------------

  lemma {:induction false} InsertFirst(leq: KeyOrder, f: Field, fields: seq<Field>)
    requires forall i :: 0 <= i < |fields| ==> leq(f.key, fields[i].key)
    ensures InsertField(leq, f, fields) == [f] + fields
  {
  }

  lemma {:induction false} DefinedKeys(fields: seq<Field>, key: string, leq: KeyOrder)
    requires forall i :: 0 <= i < |fields| ==> leq(key, fields[i].key)
    ensures forall i :: 0 <= i < |DefinedFields(fields)| ==> leq(key, DefinedFields(fields)[i].key)
  {
    if fields != [] { DefinedKeys(fields[1..], key, leq); }
  }

  lemma DefinedCons(f: Field, fields: seq<Field>)
    ensures DefinedFields([f] + fields) ==
              if f.value.Undefined? then DefinedFields(fields)
              else [Field(f.key, Defined(f.value))] + DefinedFields(fields)
  {
    assert ([f] + fields)[1..] == fields;
    assert [] + DefinedFields(fields) == DefinedFields(fields);
  }

  lemma HeadBelow(leq: KeyOrder, key: string, fields: seq<Field>)
    requires TotalOrder(leq) && SortedFields(leq, fields)
    requires fields != [] ==> leq(key, fields[0].key)
    ensures forall i :: 0 <= i < |fields| ==> leq(key, fields[i].key)
  {
    forall i | 0 <= i < |fields| ensures leq(key, fields[i].key) {
      assert i == 0 || leq(fields[0].key, fields[i].key);
    }
  }

  ghost function InsertIfDefined(leq: KeyOrder, f: Field, fields: seq<Field>): seq<Field> {
    if f.value.Undefined? then fields else InsertField(leq, Field(f.key, Defined(f.value)), fields)
  }

  lemma InsertDefinedFront(leq: KeyOrder, f: Field, fields: seq<Field>)
    requires TotalOrder(leq) && SortedFields(leq, fields) && (fields == [] || leq(f.key, fields[0].key))
    ensures DefinedFields(InsertField(leq, f, fields)) == InsertIfDefined(leq, f, DefinedFields(fields))
  {
    hide Defined, TotalOrder;
    DefinedCons(f, fields);
    HeadBelow(leq, f.key, fields);
    DefinedKeys(fields, f.key, leq);
    hide DefinedFields;
    InsertFirst(leq, Field(f.key, Defined(f.value)), DefinedFields(fields));
  }

  lemma {:induction false} InsertDefined(leq: KeyOrder, f: Field, fields: seq<Field>)
    requires TotalOrder(leq) && SortedFields(leq, fields)
    ensures DefinedFields(InsertField(leq, f, fields)) == InsertIfDefined(leq, f, DefinedFields(fields))
  {
    hide Defined, TotalOrder;
    if fields == [] || leq(f.key, fields[0].key) {
      InsertDefinedFront(leq, f, fields);
    } else {
      InsertDefined(leq, f, fields[1..]);
      DefinedCons(fields[0], InsertField(leq, f, fields[1..]));
      DefinedCons(fields[0], fields[1..]);
      assert [fields[0]] + fields[1..] == fields;
      var rest := DefinedFields(fields[1..]);
      hide DefinedFields;
      assert !fields[0].value.Undefined? ==> DefinedFields(fields)[1..] == rest;
    }
  }

  lemma {:induction false} SortDefined(leq: KeyOrder, fields: seq<Field>)
    requires TotalOrder(leq) && UniqueKeys(fields)
    ensures SortFields(leq, DefinedFields(fields)) == DefinedFields(SortFields(leq, fields))
  {
    hide Defined, TotalOrder;
    if fields != [] {
      SortDefined(leq, fields[1..]);
      SortSorts(leq, fields[1..]);
      InsertDefined(leq, fields[0], SortFields(leq, fields[1..]));
      DefinedCons(fields[0], fields[1..]);
      assert [fields[0]] + fields[1..] == fields;
      var rest := DefinedFields(fields[1..]);
      assert !fields[0].value.Undefined? ==> DefinedFields(fields)[1..] == rest;
    }
  }

  // ---- The text decides equality -----------------------------------------------------------------

  /** canonicalizeMetadata, as text. */
  function MetadataJson(leq: KeyOrder, v: Value): string {
    Print(Normalize(leq, Defined(v)))
  }

  /** An undefined value that is not an object field counts as null. */
  function Nulled(v: Value): Value
    decreases v
  {
    match v
    case Arr(items) => Arr(seq(|items|, i requires 0 <= i < |items| => Nulled(items[i])))
    case Obj(fields) => Obj(NulledFields(fields))
    case Undefined => Null
    case _ => v
  }

  function NulledFields(fields: seq<Field>): (r: seq<Field>)
    ensures |r| == |fields|
    decreases fields
  {
    if fields == [] then [] else [NulledField(fields[0])] + NulledFields(fields[1..])
  }

  function NulledField(f: Field): Field
    decreases f
  {
    Field(f.key, Nulled(f.value))
  }

  /** What the text of a metadata value tells: undefined object fields are absent, other undefined values null. */
  function Told(v: Value): Value {
    Nulled(Defined(v))
  }

  predicate Supported(v: Value) {
    match v
    case Unsupported => false
    case Arr(items) => forall i :: 0 <= i < |items| ==> Supported(items[i])
    case Obj(fields) => forall i :: 0 <= i < |fields| ==> Supported(fields[i].value)
    case _ => true
  }

  lemma {:induction false} NulledAt(fields: seq<Field>, i: nat)
    requires i < |fields|
    ensures NulledFields(fields)[i] == NulledField(fields[i])
  {
    if i > 0 { NulledAt(fields[1..], i - 1); }
  }

  lemma {:induction false} PrintNulled(v: Value)
    ensures Print(Nulled(v)) == Print(v)
    decreases v
  {
    match v
    case Arr(items) =>
      if items != [] {
        PrintNulled(items[0]);
        PrintNulledItems(items[1..]);
        assert Nulled(v).items[1..] == Nulled(Arr(items[1..])).items;
      }
    case Obj(fields) =>
      if fields != [] {
        PrintNulled(fields[0].value);
        PrintNulledFields(fields[1..]);
        assert NulledFields(fields)[1..] == NulledFields(fields[1..]);
        assert PrintField(NulledField(fields[0])) == PrintField(fields[0]);
      }
      assert PrintObject(NulledFields(fields)) == PrintObject(fields);
    case _ =>
  }

  lemma {:induction false} PrintNulledItems(items: seq<Value>)
    ensures PrintItems(Nulled(Arr(items)).items) == PrintItems(items)
    decreases items
  {
    if items != [] {
      PrintNulled(items[0]);
      PrintNulledItems(items[1..]);
      assert Nulled(Arr(items)).items[1..] == Nulled(Arr(items[1..])).items;
    }
  }

  lemma {:induction false} PrintNulledFields(fields: seq<Field>)
    ensures PrintFields(NulledFields(fields)) == PrintFields(fields)
    decreases fields
  {
    if fields != [] {
      PrintNulled(fields[0].value);
      PrintNulledFields(fields[1..]);
      assert NulledFields(fields)[1..] == NulledFields(fields[1..]);
    }
  }

  lemma {:induction false} InsertNulled(leq: KeyOrder, f: Field, fields: seq<Field>)
    ensures InsertField(leq, NulledField(f), NulledFields(fields)) == NulledFields(InsertField(leq, f, fields))
  {
    if fields != [] {
      assert NulledFields(fields)[1..] == NulledFields(fields[1..]);
      InsertNulled(leq, f, fields[1..]);
      assert ([f] + fields)[1..] == fields;
      assert ([fields[0]] + InsertField(leq, f, fields[1..]))[1..] == InsertField(leq, f, fields[1..]);
    } else {
      assert NulledFields([f]) == [NulledField(f)];
    }
  }

  lemma {:induction false} SortNulled(leq: KeyOrder, fields: seq<Field>)
    ensures SortFields(leq, NulledFields(fields)) == NulledFields(SortFields(leq, fields))
  {
    if fields != [] {
      assert NulledFields(fields)[1..] == NulledFields(fields[1..]);
      SortNulled(leq, fields[1..]);
      InsertNulled(leq, fields[0], SortFields(leq, fields[1..]));
    }
  }

  lemma {:induction false} NormalizeNulled(leq: KeyOrder, v: Value)
    ensures Normalize(leq, Nulled(v)) == Nulled(Normalize(leq, v))
    decreases v
  {
    match v
    case Arr(items) =>
      forall i | 0 <= i < |items| ensures Normalize(leq, Nulled(items[i])) == Nulled(Normalize(leq, items[i])) {
        NormalizeNulled(leq, items[i]);
      }
      assert Normalize(leq, Nulled(v)).items == Nulled(Normalize(leq, v)).items;
    case Obj(fields) =>
      SortNulled(leq, fields);
      var sorted := SortFields(leq, fields);
      var a, b := Normalize(leq, Nulled(v)).fields, Nulled(Normalize(leq, v)).fields;
      forall i | 0 <= i < |sorted| ensures a[i] == b[i] {
        assert sorted[i] in fields;
        NormalizeNulled(leq, sorted[i].value);
        NulledAt(sorted, i);
        NulledAt(Normalize(leq, v).fields, i);
      }
      assert a == b;
    case _ =>
  }

  lemma {:induction false} DefinedFieldsFrom(fields: seq<Field>)
    ensures forall g :: g in DefinedFields(fields) ==>
              exists f :: f in fields && !f.value.Undefined? && g == Field(f.key, Defined(f.value))
    ensures UniqueKeys(fields) ==> UniqueKeys(DefinedFields(fields))
  {
    if fields != [] {
      DefinedFieldsFrom(fields[1..]);
      assert forall f :: f in fields[1..] ==> f in fields;
      var rest := DefinedFields(fields[1..]);
      if UniqueKeys(fields) {
        forall i | 0 <= i < |rest| ensures rest[i].key != fields[0].key {
          assert rest[i] in rest;
        }
      }
    }
  }

  lemma {:induction false} ToldIsData(v: Value)
    requires WellFormed(v) && Supported(v)
    ensures Data(Told(v))
    decreases v
  {
    match v
    case Arr(items) =>
      forall i | 0 <= i < |items| ensures Data(Told(items[i])) {
        ToldIsData(items[i]);
      }
      assert forall i :: 0 <= i < |items| ==> Told(v).items[i] == Told(items[i]);
    case Obj(fields) =>
      var d := DefinedFields(fields);
      DefinedFieldsFrom(fields);
      forall i | 0 <= i < |d| ensures NulledFields(d)[i].key == d[i].key && Data(NulledFields(d)[i].value) {
        assert d[i] in d;
        var f :| f in fields && !f.value.Undefined? && d[i] == Field(f.key, Defined(f.value));
        ToldIsData(f.value);
        NulledAt(d, i);
      }
      assert UniqueKeys(NulledFields(d)) && Told(v) == Obj(NulledFields(d));
    case _ =>
  }

  /** Metadata has the same canonical text exactly when it says the same, key order aside. */
  lemma MetadataJsonDecidesEquality(leq: KeyOrder, x: Value, y: Value)
    requires TotalOrder(leq) && WellFormed(x) && WellFormed(y) && Supported(x) && Supported(y)
    ensures MetadataJson(leq, x) == MetadataJson(leq, y) <==> Same(Told(x), Told(y))
  {
    hide Normalize, Print, Same, WellFormed, Serializable, Supported;
    forall v | v in {x, y} ensures Data(Told(v)) && MetadataJson(leq, v) == Print(Normalize(leq, Told(v))) {
      ToldIsData(v);
      NormalizeNulled(leq, Defined(v));
      PrintNulled(Normalize(leq, Defined(v)));
    }
    CanonicalJsonDecidesEquality(leq, Told(x), Told(y));
  }

  /** The object has a field of that name with that value. */
  ghost predicate HasField(fields: seq<Field>, key: string, value: Value) {
    exists i :: 0 <= i < |fields| && fields[i].key == key && fields[i].value == value
  }

  lemma ToldCons(f: Field, fields: seq<Field>)
    ensures var told, rest := NulledFields(DefinedFields([f] + fields)), NulledFields(DefinedFields(fields));
            told == if f.value == Undefined then rest else [Field(f.key, Told(f.value))] + rest
  {
    DefinedCons(f, fields);
    if f.value != Undefined {
      var d := [Field(f.key, Defined(f.value))] + DefinedFields(fields);
      assert d[1..] == DefinedFields(fields);
    }
  }

  /** A field of that name that is not undefined tells that value. */
  ghost predicate Tells(fields: seq<Field>, key: string, value: Value) {
    exists i :: 0 <= i < |fields| && fields[i].key == key && fields[i].value != Undefined
                && Told(fields[i].value) == value
  }

  lemma HasFieldCons(f: Field, fields: seq<Field>, key: string, value: Value)
    ensures HasField([f] + fields, key, value) <==> f == Field(key, value) || HasField(fields, key, value)
  {
    var all := [f] + fields;
    if HasField(fields, key, value) {
      var i :| 0 <= i < |fields| && fields[i].key == key && fields[i].value == value;
      assert all[i + 1] == fields[i];
    }
    if f == Field(key, value) { assert all[0] == f; }
  }

  lemma TellsCons(f: Field, fields: seq<Field>, key: string, value: Value)
    ensures Tells([f] + fields, key, value)
            <==> (f.key == key && f.value != Undefined && Told(f.value) == value) || Tells(fields, key, value)
  {
    hide Told;
    var all := [f] + fields;
    if Tells(fields, key, value) {
      var i :| 0 <= i < |fields| && fields[i].key == key && fields[i].value != Undefined
               && Told(fields[i].value) == value;
      assert all[i + 1] == fields[i];
    }
    if f.key == key && f.value != Undefined && Told(f.value) == value { assert all[0] == f; }
  }

  lemma {:induction false} ToldFields(fields: seq<Field>, key: string, value: Value)
    ensures HasField(NulledFields(DefinedFields(fields)), key, value) <==> Tells(fields, key, value)
  {
    if fields != [] {
      var f, rest := fields[0], fields[1..];
      ToldFields(rest, key, value);
      ToldCons(f, rest);
      HasFieldCons(Field(f.key, Told(f.value)), NulledFields(DefinedFields(rest)), key, value);
      TellsCons(f, rest, key, value);
      hide NulledFields, DefinedFields, Told, HasField, Tells;
      assert [f] + rest == fields;
    }
  }

  /**
   * What metadata says: an object has exactly the fields that are not undefined, an array each element, undefined
   * ones as null, and everything else is as it is.
   */
  lemma ToldSays(v: Value)
    ensures match v
            case Arr(items) =>
              && Told(v).Arr? && |Told(v).items| == |items|
              && forall i :: 0 <= i < |items| ==> Told(v).items[i] == Told(items[i])
            case Obj(fields) =>
              && Told(v).Obj?
              && forall key, value ::
                   HasField(Told(v).fields, key, value)
                   <==> exists i :: 0 <= i < |fields| && fields[i].key == key && fields[i].value != Undefined
                                    && Told(fields[i].value) == value
            case Undefined => Told(v) == Null
            case _ => Told(v) == v
  {
    if v.Obj? {
      forall key, value
        ensures HasField(Told(v).fields, key, value) <==> Tells(v.fields, key, value)
      {
        ToldFields(v.fields, key, value);
      }
    }
  }
}
