// Canonical JSON (agent-kernel/src/canonical.ts). Values are what a parsed JSON document or a plain object holds.
module CanonicalValues {
  /**
   * Num carries the text JavaScript prints for a finite number; Unsupported stands for non-finite numbers, bigints,
   * functions and symbols. An object lists its fields in enumeration order.
   */
  datatype Value = Null | Bool(b: bool) | Num(text: string) | Str(s: string) | Arr(items: seq<Value>)
                 | Obj(fields: seq<Field>) | Undefined | Unsupported
  datatype Field = Field(key: string, value: Value)
}

module Canonical {
  import opened Prelude
  import opened CanonicalValues

  /** The order of object keys in the output, as a parameter. */
  type KeyOrder = (string, string) -> bool

  ghost predicate TotalOrder(leq: KeyOrder) {
    && (forall a, b :: leq(a, b) || leq(b, a))
    && (forall a, b :: leq(a, b) && leq(b, a) ==> a == b)
    && (forall a, b, c :: leq(a, b) && leq(b, c) ==> leq(a, c))
  }

  predicate IsNumberText(s: string) {
    && s != "" && (s[0] == '-' || '0' <= s[0] <= '9')
    && forall i :: 0 <= i < |s| ==> s[i] in "0123456789+-.eE"
  }

  ghost predicate UniqueKeys(fields: seq<Field>) {
    forall i, j :: 0 <= i < j < |fields| ==> fields[i].key != fields[j].key
  }

  /** What every JavaScript value satisfies: number texts are numbers and no object repeats a key. */
  ghost predicate WellFormed(v: Value) {
    match v
    case Num(text) => IsNumberText(text)
    case Arr(items) => forall i :: 0 <= i < |items| ==> WellFormed(items[i])
    case Obj(fields) => UniqueKeys(fields) && forall i :: 0 <= i < |fields| ==> WellFormed(fields[i].value)
    case _ => true
  }

  /** assertSerializable does not throw. */
  predicate Serializable(v: Value) {
    match v
    case Undefined => false
    case Unsupported => false
    case Arr(items) => forall i :: 0 <= i < |items| ==> Serializable(items[i])
    case Obj(fields) => forall i :: 0 <= i < |fields| ==> Serializable(fields[i].value)
    case _ => true
  }

  // ---- Normalisation and printing ----------------------------------------------------------------

  function InsertField(leq: KeyOrder, f: Field, fields: seq<Field>): (r: seq<Field>)
    ensures |r| == |fields| + 1
    ensures forall x :: x in r <==> x == f || x in fields
  {
    if fields == [] || leq(f.key, fields[0].key) then [f] + fields
    else [fields[0]] + InsertField(leq, f, fields[1..])
  }

  /** Array.prototype.sort on the entries of an object, stable. */
  function SortFields(leq: KeyOrder, fields: seq<Field>): (r: seq<Field>)
    ensures |r| == |fields|
    ensures forall x :: x in r <==> x in fields
  {
    if fields == [] then [] else InsertField(leq, fields[0], SortFields(leq, fields[1..]))
  }

  function Normalize(leq: KeyOrder, v: Value): Value
    decreases v
  {
    match v
    case Arr(items) => Arr(seq(|items|, i requires 0 <= i < |items| => Normalize(leq, items[i])))
    case Obj(fields) =>
      var sorted := SortFields(leq, fields);
      Obj(seq(|sorted|, i requires 0 <= i < |sorted| =>
        assert sorted[i] in fields;
        Field(sorted[i].key, Normalize(leq, sorted[i].value))))
    case _ => v
  }

  function HexDigit(n: nat): char
    requires n < 16
  {
    "0123456789abcdef"[n]
  }

  /** JSON's escape for one character. */
  function EscapeChar(c: char): string {
    if c == '"' then "\\\"" else if c == '\\' then "\\\\"
    else if c as int == 8 then "\\b" else if c as int == 9 then "\\t" else if c as int == 10 then "\\n"
    else if c as int == 12 then "\\f" else if c as int == 13 then "\\r"
    else if c as int < 32 then "\\u00" + [HexDigit(c as int / 16), HexDigit(c as int % 16)]
    else [c]
  }

  function Escape(s: string): string {
    if s == "" then "" else EscapeChar(s[0]) + Escape(s[1..])
  }

  /** JSON text; an undefined array element prints as null. */
  function Print(v: Value): string
    decreases v
  {
    match v
    case Null => "null"
    case Bool(b) => if b then "true" else "false"
    case Num(text) => text
    case Str(s) => "\"" + Quoted(s)
    case Arr(items) => "[" + PrintArray(items)
    case Obj(fields) => "{" + PrintObject(fields)
    case Undefined => "null"
    case Unsupported => "null"
  }

  function Quoted(s: string): string {
    Escape(s) + "\""
  }

  function PrintArray(items: seq<Value>): string
    decreases items
  {
    if items == [] then "]" else Print(items[0]) + PrintItems(items[1..])
  }

  function PrintObject(fields: seq<Field>): string
    decreases fields
  {
    if fields == [] then "}" else PrintField(fields[0]) + PrintFields(fields[1..])
  }

  function PrintItems(items: seq<Value>): string
    decreases items
  {
    if items == [] then "]" else "," + (Print(items[0]) + PrintItems(items[1..]))
  }

  function PrintField(f: Field): string
    decreases f
  {
    "\"" + (Quoted(f.key) + (":" + Print(f.value)))
  }

  function PrintFields(fields: seq<Field>): string
    decreases fields
  {
    if fields == [] then "}" else "," + (PrintField(fields[0]) + PrintFields(fields[1..]))
  }

  function CanonicalJson(leq: KeyOrder, v: Value): Result<string> {
    if Serializable(v) then Ok(Print(Normalize(leq, v))) else Err("value is not canonical")
  }

  // ---- Printing is injective ---------------------------------------------------------------------

  /** Text that may follow a printed value. */
  ghost predicate Delimited(rest: string) {
    rest == "" || rest[0] in ",]}"
  }

  lemma NumberPrefix(a: string, b: string, r: string, t: string)
    requires IsNumberText(a) && IsNumberText(b) && Delimited(r) && Delimited(t)
    requires a + r == b + t
    ensures a == b && r == t
  {
    assert r == "" || (a + r)[|a|] == r[0];
    assert t == "" || (b + t)[|b|] == t[0];
    assert forall i :: 0 <= i < |a| ==> (a + r)[i] == a[i];
    assert forall i :: 0 <= i < |b| ==> (b + t)[i] == b[i];
    assert |a| == |b|;
    assert a == (a + r)[..|a|] && b == (b + t)[..|b|];
    assert r == (a + r)[|a|..] && t == (b + t)[|b|..];
  }

  lemma EscapeCharPrefix(c: char, d: char, r: string, t: string)
    requires EscapeChar(c) + r == EscapeChar(d) + t
    ensures c == d && r == t
  {
    var u, w := EscapeChar(c), EscapeChar(d);
    SameStart(u, r, w, t);
    assert |u| == |w| by {
      assert u[0] == w[0];
      assert |u| > 1 && |w| > 1 ==> u[1] == w[1];
    }
    SameLength(u, r, w, t);
    EscapeCharInjective(c, d);
  }

  lemma EscapeCharInjective(c: char, d: char)
    requires EscapeChar(c) == EscapeChar(d)
    ensures c == d
  {
    var u, w := EscapeChar(c), EscapeChar(d);
    assert u[0] == w[0];
    if |u| > 1 {
      assert u[1] == w[1];
    }
    if |u| == 6 {
      assert u[4] == w[4] && u[5] == w[5];
    }
  }

  lemma SameStart(u: string, r: string, w: string, t: string)
    requires u + r == w + t
    ensures forall i :: 0 <= i < |u| && i < |w| ==> u[i] == w[i]
  {
    assert forall i :: 0 <= i < |u| ==> (u + r)[i] == u[i];
    assert forall i :: 0 <= i < |w| ==> (w + t)[i] == w[i];
  }

  lemma SameLength(u: string, r: string, w: string, t: string)
    requires u + r == w + t && |u| == |w|
    ensures u == w && r == t
  {
    assert u == (u + r)[..|u|] && w == (w + t)[..|w|];
    assert r == (u + r)[|u|..] && t == (w + t)[|w|..];
  }

  lemma Regroup(u: string, p: string, r: string)
    ensures (u + p) + r == u + (p + r)
  {
  }

  lemma CancelFront(u: string, p: string, r: string, w: string, q: string, t: string)
    requires (u + p) + r == (w + q) + t && |u| == |w|
    ensures u == w && p + r == q + t
  {
    Regroup(u, p, r);
    Regroup(w, q, t);
    SameLength(u, p + r, w, q + t);
  }

  lemma {:induction false} QuotedPrefix(a: string, b: string, r: string, t: string)
    requires Quoted(a) + r == Quoted(b) + t
    ensures a == b && r == t
  {
    QuotedStep(a);
    QuotedStep(b);
    assert (Quoted(a) + r)[0] == Quoted(a)[0] && (Quoted(b) + t)[0] == Quoted(b)[0];
    hide Quoted, EscapeChar;
    if a == "" || b == "" {
      SameLength("\"", r, "\"", t);
    } else {
      Regroup(EscapeChar(a[0]), Quoted(a[1..]), r);
      Regroup(EscapeChar(b[0]), Quoted(b[1..]), t);
      EscapeCharPrefix(a[0], b[0], Quoted(a[1..]) + r, Quoted(b[1..]) + t);
      QuotedPrefix(a[1..], b[1..], r, t);
      assert a == [a[0]] + a[1..] && b == [b[0]] + b[1..];
    }
  }

  /** Escaped text shows an unescaped quote only where it ends. */
  lemma QuotedStep(s: string)
    ensures Quoted(s) != "" && (Quoted(s)[0] == '"' <==> s == "")
    ensures s == "" ==> Quoted(s) == "\""
    ensures s != "" ==> Quoted(s) == EscapeChar(s[0]) + Quoted(s[1..])
  {
    if s != "" {
      assert EscapeChar(s[0]) != "" && EscapeChar(s[0])[0] != '"';
      Regroup(EscapeChar(s[0]), Escape(s[1..]), "\"");
    }
  }

  /** The first character of a printed value tells its kind, and is never a closing bracket. */
  function Lead(v: Value): string {
    match v
    case Null => "n"
    case Bool(b) => if b then "t" else "f"
    case Num(_) => "-0123456789"
    case Str(_) => "\""
    case Arr(_) => "["
    case Obj(_) => "{"
    case _ => "n"
  }

  lemma PrintLeads(v: Value)
    requires WellFormed(v)
    ensures Print(v) != "" && Print(v)[0] in Lead(v)
  {
  }

  lemma SameKind(x: Value, y: Value, r: string, t: string)
    requires WellFormed(x) && WellFormed(y) && Print(x) + r == Print(y) + t
    ensures exists c :: c in Lead(x) && c in Lead(y)
  {
    PrintLeads(x);
    PrintLeads(y);
    assert Print(x)[0] == (Print(x) + r)[0] == (Print(y) + t)[0] == Print(y)[0];
  }

  lemma SameConstructor(x: Value, y: Value, r: string, t: string)
    requires WellFormed(x) && WellFormed(y) && Serializable(x) && Serializable(y) && Print(x) + r == Print(y) + t
    ensures match x
            case Num(_) => y.Num?
            case Str(_) => y.Str?
            case Arr(_) => y.Arr?
            case Obj(_) => y.Obj?
            case _ => y == x
  {
    hide Print;
    SameKind(x, y, r, t);
  }

  /** JSON data: what canonicalJson accepts. */
  ghost predicate Data(v: Value) {
    WellFormed(v) && Serializable(v)
  }

  ghost predicate DataItems(items: seq<Value>) {
    forall i :: 0 <= i < |items| ==> Data(items[i])
  }

  ghost predicate DataFields(fields: seq<Field>) {
    forall i :: 0 <= i < |fields| ==> Data(fields[i].value)
  }

  /** A printed value is recognised in front of whatever delimiter follows it. */
  lemma {:induction false} PrintPrefix(x: Value, y: Value, r: string, t: string)
    requires Data(x) && Data(y) && Delimited(r) && Delimited(t)
    requires Print(x) + r == Print(y) + t
    ensures x == y && r == t
    decreases x, 1
  {
    hide Quoted, PrintArray, PrintObject, Lead;
    SameConstructor(x, y, r, t);
    match x
    case Num(a) => NumberPrefix(a, y.text, r, t);
    case Str(a) =>
      CancelFront("\"", Quoted(a), r, "\"", Quoted(y.s), t);
      QuotedPrefix(a, y.s, r, t);
    case Arr(a) =>
      CancelFront("[", PrintArray(a), r, "[", PrintArray(y.items), t);
      ArrayPrefix(a, y.items, r, t);
    case Obj(a) =>
      CancelFront("{", PrintObject(a), r, "{", PrintObject(y.fields), t);
      ObjectPrefix(a, y.fields, r, t);
    case _ => SameLength(Print(x), r, Print(y), t);
  }

  lemma {:induction false} ArrayPrefix(a: seq<Value>, b: seq<Value>, r: string, t: string)
    requires DataItems(a) && DataItems(b) && Delimited(r) && Delimited(t)
    requires PrintArray(a) + r == PrintArray(b) + t
    ensures a == b && r == t
    decreases a, 1
  {
    ArrayLeads(a);
    ArrayLeads(b);
    assert (PrintArray(a) + r)[0] == PrintArray(a)[0] && (PrintArray(b) + t)[0] == PrintArray(b)[0];
    if a == [] || b == [] {
      SameLength("]", r, "]", t);
    } else {
      ItemsStep(a, b, r, t);
    }
  }

  lemma ArrayLeads(a: seq<Value>)
    requires DataItems(a)
    ensures PrintArray(a) != "" && (PrintArray(a)[0] == ']' <==> a == [])
  {
    if a != [] { PrintLeads(a[0]); }
  }

  /** The step shared by arrays and by the rest of an array. */
  lemma {:induction false} ItemsStep(a: seq<Value>, b: seq<Value>, r: string, t: string)
    requires DataItems(a) && DataItems(b) && Delimited(r) && Delimited(t) && a != [] && b != []
    requires PrintArray(a) + r == PrintArray(b) + t
    ensures a == b && r == t
    decreases a, 0
  {
    hide Print, Data;
    var p, q := PrintItems(a[1..]) + r, PrintItems(b[1..]) + t;
    assert Delimited(p) && Delimited(q);
    hide PrintItems;
    Regroup(Print(a[0]), PrintItems(a[1..]), r);
    Regroup(Print(b[0]), PrintItems(b[1..]), t);
    PrintPrefix(a[0], b[0], p, q);
    ItemsPrefix(a[1..], b[1..], r, t);
    assert a == [a[0]] + a[1..] && b == [b[0]] + b[1..];
  }

  lemma {:induction false} ItemsPrefix(a: seq<Value>, b: seq<Value>, r: string, t: string)
    requires DataItems(a) && DataItems(b) && Delimited(r) && Delimited(t)
    requires PrintItems(a) + r == PrintItems(b) + t
    ensures a == b && r == t
    decreases a, 1
  {
    hide Print, Data, PrintArray;
    assert (PrintItems(a) + r)[0] == (PrintItems(b) + t)[0];
    if a == [] || b == [] {
      SameLength("]", r, "]", t);
    } else {
      ItemsAsArray(a);
      ItemsAsArray(b);
      CancelFront(",", PrintArray(a), r, ",", PrintArray(b), t);
      ItemsStep(a, b, r, t);
    }
  }

  lemma ItemsAsArray(a: seq<Value>)
    requires a != []
    ensures PrintItems(a) == "," + PrintArray(a)
  {
  }

  lemma FieldsAsObject(a: seq<Field>)
    requires a != []
    ensures PrintFields(a) == "," + PrintObject(a)
  {
  }

  lemma {:induction false} FieldPrefix(f: Field, g: Field, r: string, t: string)
    requires Data(f.value) && Data(g.value) && Delimited(r) && Delimited(t)
    requires PrintField(f) + r == PrintField(g) + t
    ensures f == g && r == t
    decreases f, 0
  {
    hide Print, Quoted, Data;
    var p, q := ":" + Print(f.value), ":" + Print(g.value);
    CancelFront("\"", Quoted(f.key) + p, r, "\"", Quoted(g.key) + q, t);
    Regroup(Quoted(f.key), p, r);
    Regroup(Quoted(g.key), q, t);
    QuotedPrefix(f.key, g.key, p + r, q + t);
    CancelFront(":", Print(f.value), r, ":", Print(g.value), t);
    PrintPrefix(f.value, g.value, r, t);
  }

  lemma {:induction false} ObjectPrefix(a: seq<Field>, b: seq<Field>, r: string, t: string)
    requires DataFields(a) && DataFields(b) && Delimited(r) && Delimited(t)
    requires PrintObject(a) + r == PrintObject(b) + t
    ensures a == b && r == t
    decreases a, 1
  {
    ObjectLeads(a);
    ObjectLeads(b);
    assert (PrintObject(a) + r)[0] == PrintObject(a)[0] && (PrintObject(b) + t)[0] == PrintObject(b)[0];
    if a == [] || b == [] {
      SameLength("}", r, "}", t);
    } else {
      FieldsStep(a, b, r, t);
    }
  }

  lemma ObjectLeads(a: seq<Field>)
    ensures PrintObject(a) != "" && (PrintObject(a)[0] == '}' <==> a == [])
  {
    hide Print, Quoted;
  }

  lemma {:induction false} FieldsStep(a: seq<Field>, b: seq<Field>, r: string, t: string)
    requires DataFields(a) && DataFields(b) && Delimited(r) && Delimited(t) && a != [] && b != []
    requires PrintObject(a) + r == PrintObject(b) + t
    ensures a == b && r == t
    decreases a, 0
  {
    hide PrintField, Data;
    var p, q := PrintFields(a[1..]) + r, PrintFields(b[1..]) + t;
    assert Delimited(p) && Delimited(q);
    hide PrintFields;
    Regroup(PrintField(a[0]), PrintFields(a[1..]), r);
    Regroup(PrintField(b[0]), PrintFields(b[1..]), t);
    FieldPrefix(a[0], b[0], p, q);
    FieldsPrefix(a[1..], b[1..], r, t);
    assert a == [a[0]] + a[1..] && b == [b[0]] + b[1..];
  }

  lemma {:induction false} FieldsPrefix(a: seq<Field>, b: seq<Field>, r: string, t: string)
    requires DataFields(a) && DataFields(b) && Delimited(r) && Delimited(t)
    requires PrintFields(a) + r == PrintFields(b) + t
    ensures a == b && r == t
    decreases a, 1
  {
    hide PrintField, Data, PrintObject;
    assert (PrintFields(a) + r)[0] == (PrintFields(b) + t)[0];
    if a == [] || b == [] {
      SameLength("}", r, "}", t);
    } else {
      FieldsAsObject(a);
      FieldsAsObject(b);
      CancelFront(",", PrintObject(a), r, ",", PrintObject(b), t);
      FieldsStep(a, b, r, t);
    }
  }

  lemma PrintInjective(x: Value, y: Value)
    requires WellFormed(x) && WellFormed(y) && Serializable(x) && Serializable(y)
    requires Print(x) == Print(y)
    ensures x == y
  {
    assert Print(x) + "" == Print(y) + "";
    PrintPrefix(x, y, "", "");
  }

  // ---- Sorting and normalisation -----------------------------------------------------------------

  ghost predicate SortedFields(leq: KeyOrder, fields: seq<Field>) {
    forall i, j :: 0 <= i < j < |fields| ==> leq(fields[i].key, fields[j].key)
  }

  lemma {:induction false} InsertSorted(leq: KeyOrder, f: Field, fields: seq<Field>)
    requires TotalOrder(leq) && SortedFields(leq, fields) && UniqueKeys(fields)
    requires forall i :: 0 <= i < |fields| ==> fields[i].key != f.key
    ensures SortedFields(leq, InsertField(leq, f, fields)) && UniqueKeys(InsertField(leq, f, fields))
  {
    if fields != [] && !leq(f.key, fields[0].key) {
      InsertSorted(leq, f, fields[1..]);
      var r := InsertField(leq, f, fields[1..]);
      forall j | 0 <= j < |r| ensures leq(fields[0].key, r[j].key) && fields[0].key != r[j].key {
        assert r[j] in r;
      }
    }
  }

  lemma {:induction false} SortSorts(leq: KeyOrder, fields: seq<Field>)
    requires TotalOrder(leq) && UniqueKeys(fields)
    ensures SortedFields(leq, SortFields(leq, fields)) && UniqueKeys(SortFields(leq, fields))
  {
    if fields != [] {
      SortSorts(leq, fields[1..]);
      var r := SortFields(leq, fields[1..]);
      forall j | 0 <= j < |r| ensures r[j].key != fields[0].key {
        assert r[j] in fields[1..];
      }
      InsertSorted(leq, fields[0], r);
    }
  }

  ghost function Keys(fields: seq<Field>): set<string> {
    set i | 0 <= i < |fields| :: fields[i].key
  }

  lemma SortKeepsKeys(leq: KeyOrder, fields: seq<Field>)
    ensures Keys(SortFields(leq, fields)) == Keys(fields)
  {
    var r := SortFields(leq, fields);
    forall k | k in Keys(fields) ensures k in Keys(r) {
      var i :| 0 <= i < |fields| && fields[i].key == k;
      assert fields[i] in r;
    }
    forall k | k in Keys(r) ensures k in Keys(fields) {
      var i :| 0 <= i < |r| && r[i].key == k;
      assert r[i] in fields;
    }
  }

  /** Two sorted field lists without repeated keys that have the same keys have them in the same places. */
  lemma {:induction false} SortedKeysAlign(leq: KeyOrder, a: seq<Field>, b: seq<Field>)
    requires TotalOrder(leq) && SortedFields(leq, a) && SortedFields(leq, b) && UniqueKeys(a) && UniqueKeys(b)
    requires Keys(a) == Keys(b)
    ensures |a| == |b| && forall i :: 0 <= i < |a| ==> a[i].key == b[i].key
  {
    assert a != [] ==> a[0].key in Keys(a);
    assert b != [] ==> b[0].key in Keys(b);
    if a != [] && b != [] {
      assert a[0].key in Keys(b) && b[0].key in Keys(a);
      assert a[0].key == b[0].key;
      DropHead(a);
      DropHead(b);
      SortedKeysAlign(leq, a[1..], b[1..]);
    }
  }

  lemma DropHead(a: seq<Field>)
    requires a != [] && UniqueKeys(a)
    ensures Keys(a[1..]) == Keys(a) - {a[0].key}
  {
    forall k | k in Keys(a) - {a[0].key} ensures k in Keys(a[1..]) {
      var i :| 0 <= i < |a| && a[i].key == k;
      assert a[1..][i - 1].key == k;
    }
    forall k | k in Keys(a[1..]) ensures k in Keys(a) - {a[0].key} {
      var i :| 0 <= i < |a[1..]| && a[1..][i].key == k;
      assert a[i + 1].key == k;
    }
  }

  /** Equality up to the order of object keys at every depth. */
  ghost predicate Same(x: Value, y: Value)
    decreases x
  {
    match (x, y)
    case (Arr(a), Arr(b)) => |a| == |b| && forall i :: 0 <= i < |a| ==> Same(a[i], b[i])
    case (Obj(a), Obj(b)) =>
      && Keys(a) == Keys(b)
      && forall i, j :: 0 <= i < |a| && 0 <= j < |b| && a[i].key == b[j].key ==> Same(a[i].value, b[j].value)
    case _ => x == y
  }

  lemma {:induction false} NormalizeKeeps(leq: KeyOrder, v: Value)
    requires TotalOrder(leq) && WellFormed(v) && Serializable(v)
    ensures WellFormed(Normalize(leq, v)) && Serializable(Normalize(leq, v))
    decreases v
  {
    match v
    case Arr(items) =>
      forall i | 0 <= i < |items|
        ensures WellFormed(Normalize(leq, items[i])) && Serializable(Normalize(leq, items[i]))
      {
        NormalizeKeeps(leq, items[i]);
      }
    case Obj(fields) =>
      var sorted := SortFields(leq, fields);
      SortSorts(leq, fields);
      forall i | 0 <= i < |sorted|
        ensures WellFormed(Normalize(leq, sorted[i].value)) && Serializable(Normalize(leq, sorted[i].value))
      {
        assert sorted[i] in fields;
        NormalizeKeeps(leq, sorted[i].value);
      }
    case _ =>
  }

  lemma NormalArraysSame(leq: KeyOrder, a: seq<Value>, b: seq<Value>)
    requires |a| == |b| ==>
               forall i :: 0 <= i < |a| ==> (Normalize(leq, a[i]) == Normalize(leq, b[i]) <==> Same(a[i], b[i]))
    ensures Normalize(leq, Arr(a)) == Normalize(leq, Arr(b)) <==> Same(Arr(a), Arr(b))
  {
    var m, n := Normalize(leq, Arr(a)).items, Normalize(leq, Arr(b)).items;
    assert |m| == |a| && |n| == |b|;
    if |a| == |b| {
      assert forall i :: 0 <= i < |a| ==> m[i] == Normalize(leq, a[i]) && n[i] == Normalize(leq, b[i]);
      assert m == n <==> forall i :: 0 <= i < |a| ==> m[i] == n[i];
      assert Same(Arr(a), Arr(b)) <==> forall i :: 0 <= i < |a| ==> Same(a[i], b[i]);
    }
  }

  lemma {:induction false} NormalizeDecides(leq: KeyOrder, x: Value, y: Value)
    requires TotalOrder(leq) && WellFormed(x) && WellFormed(y)
    ensures Normalize(leq, x) == Normalize(leq, y) <==> Same(x, y)
    decreases x
  {
    match (x, y)
    case (Arr(a), Arr(b)) =>
      if |a| == |b| {
        forall i | 0 <= i < |a| ensures Normalize(leq, a[i]) == Normalize(leq, b[i]) <==> Same(a[i], b[i]) {
          NormalizeDecides(leq, a[i], b[i]);
        }
      }
      NormalArraysSame(leq, a, b);
    case (Obj(a), Obj(b)) =>
      forall f, g | f in a && g in b
        ensures Normalize(leq, f.value) == Normalize(leq, g.value) <==> Same(f.value, g.value)
      {
        NormalizeDecides(leq, f.value, g.value);
      }
      if Same(x, y) {
        SameObjectsNormalize(leq, a, b);
      }
      if Normalize(leq, x) == Normalize(leq, y) {
        NormalObjectsSame(leq, a, b);
      }
    case _ =>
  }

  ghost predicate ValuesDecided(leq: KeyOrder, a: seq<Field>, b: seq<Field>) {
    forall f, g | f in a && g in b :: Normalize(leq, f.value) == Normalize(leq, g.value) <==> Same(f.value, g.value)
  }

  lemma SameObjectsNormalize(leq: KeyOrder, a: seq<Field>, b: seq<Field>)
    requires TotalOrder(leq) && UniqueKeys(a) && UniqueKeys(b) && ValuesDecided(leq, a, b)
    requires Same(Obj(a), Obj(b))
    ensures Normalize(leq, Obj(a)) == Normalize(leq, Obj(b))
  {
    var p, q := SortFields(leq, a), SortFields(leq, b);
    SortSorts(leq, a);
    SortSorts(leq, b);
    SortKeepsKeys(leq, a);
    SortKeepsKeys(leq, b);
    SortedKeysAlign(leq, p, q);
    var m, n := Normalize(leq, Obj(a)).fields, Normalize(leq, Obj(b)).fields;
    forall i | 0 <= i < |p| ensures m[i] == n[i] {
      assert p[i] in a && q[i] in b;
    }
    assert m == n;
  }

  ghost predicate FieldsMatch(leq: KeyOrder, p: seq<Field>, q: seq<Field>) {
    |p| == |q| && forall i :: 0 <= i < |p| ==>
      p[i].key == q[i].key && Normalize(leq, p[i].value) == Normalize(leq, q[i].value)
  }

  lemma NormalFieldsMatch(leq: KeyOrder, a: seq<Field>, b: seq<Field>)
    requires Normalize(leq, Obj(a)) == Normalize(leq, Obj(b))
    ensures FieldsMatch(leq, SortFields(leq, a), SortFields(leq, b))
  {
    var p, q := SortFields(leq, a), SortFields(leq, b);
    var m, n := Normalize(leq, Obj(a)).fields, Normalize(leq, Obj(b)).fields;
    forall i | 0 <= i < |p|
      ensures p[i].key == q[i].key && Normalize(leq, p[i].value) == Normalize(leq, q[i].value)
    {
      assert m[i] == n[i];
    }
  }

  lemma MatchedValuesSame(leq: KeyOrder, a: seq<Field>, b: seq<Field>, f: Field, g: Field)
    requires UniqueKeys(SortFields(leq, b)) && ValuesDecided(leq, a, b)
    requires FieldsMatch(leq, SortFields(leq, a), SortFields(leq, b))
    requires f in a && g in b && f.key == g.key
    ensures Same(f.value, g.value)
  {
    hide Normalize, Same;
    var p, q := SortFields(leq, a), SortFields(leq, b);
    var k :| 0 <= k < |p| && p[k] == f;
    var l :| 0 <= l < |q| && q[l] == g;
    assert q[k].key == q[l].key;
  }

  lemma NormalObjectsSame(leq: KeyOrder, a: seq<Field>, b: seq<Field>)
    requires TotalOrder(leq) && UniqueKeys(a) && UniqueKeys(b) && ValuesDecided(leq, a, b)
    requires Normalize(leq, Obj(a)) == Normalize(leq, Obj(b))
    ensures Same(Obj(a), Obj(b))
  {
    hide Normalize, SortedFields, ValuesDecided, SortFields;
    var p, q := SortFields(leq, a), SortFields(leq, b);
    SortSorts(leq, b);
    SortKeepsKeys(leq, a);
    SortKeepsKeys(leq, b);
    NormalFieldsMatch(leq, a, b);
    assert Keys(p) == Keys(q);
    forall i, j | 0 <= i < |a| && 0 <= j < |b| && a[i].key == b[j].key ensures Same(a[i].value, b[j].value) {
      MatchedValuesSame(leq, a, b, a[i], b[j]);
    }
  }

  /**
   * The law canonicalJson exists for: two values have the same canonical text exactly when they are equal up to
   * the order of object keys at every depth.
   */
  lemma CanonicalJsonDecidesEquality(leq: KeyOrder, x: Value, y: Value)
    requires TotalOrder(leq) && WellFormed(x) && WellFormed(y) && Serializable(x) && Serializable(y)
    ensures CanonicalJson(leq, x) == CanonicalJson(leq, y) <==> Same(x, y)
  {
    NormalizeDecides(leq, x, y);
    NormalizeKeeps(leq, x);
    NormalizeKeeps(leq, y);
    if Print(Normalize(leq, x)) == Print(Normalize(leq, y)) {
      PrintInjective(Normalize(leq, x), Normalize(leq, y));
    }
  }
}
