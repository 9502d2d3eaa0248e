// A reader of JSON text as RFC 8259 describes it, without insignificant whitespace, and what it makes of canonical
// text.
module JsonReader {
  import opened Prelude
  import opened CanonicalValues
  import opened Canonical
  import opened Metadata

  /** A value read and the text that follows it. */
  datatype Parsed<+T> = Parsed(value: T, rest: string) | Refused

  // ---- Strings (section 7) -----------------------------------------------------------------------

  /** The character that a two-character escape stands for. */
  function Escaped(c: char): Option<char> {
    match c
    case '"' => Some('"')
    case '\\' => Some('\\')
    case '/' => Some('/')
    case 'b' => Some(8 as char)
    case 'f' => Some(12 as char)
    case 'n' => Some(10 as char)
    case 'r' => Some(13 as char)
    case 't' => Some(9 as char)
    case _ => None
  }

  function HexNumber(c: char): Option<nat> {
    if '0' <= c <= '9' then Some(c as nat - '0' as nat)
    else if 'a' <= c <= 'f' then Some(c as nat - 'a' as nat + 10)
    else if 'A' <= c <= 'F' then Some(c as nat - 'A' as nat + 10)
    else None
  }

  /** The character with the four-digit code, unless it is half of a surrogate pair. */
  function CodePoint(a: char, b: char, c: char, d: char): Option<char> {
    var p, q, r, s := HexNumber(a), HexNumber(b), HexNumber(c), HexNumber(d);
    if p.None? || q.None? || r.None? || s.None? then None
    else
      var code := 4096 * p.value + 256 * q.value + 16 * r.value + s.value;
      if 0xD800 <= code < 0xE000 || code > 0xFFFF then None else Some(code as char)
  }

  function Prefixed(c: char, text: Parsed<string>): Parsed<string> {
    if text.Refused? then Refused else Parsed([c] + text.value, text.rest)
  }

  /** The characters of a string up to its closing quotation mark. */
  function ReadText(s: string): (r: Parsed<string>)
    ensures r.Parsed? ==> |r.rest| < |s|
    decreases |s|
  {
    if s == "" then Refused
    else if s[0] == '"' then Parsed("", s[1..])
    else if s[0] == '\\' then
      if |s| >= 6 && s[1] == 'u' && CodePoint(s[2], s[3], s[4], s[5]).Some?
      then Prefixed(CodePoint(s[2], s[3], s[4], s[5]).value, ReadText(s[6..]))
      else if |s| >= 2 && Escaped(s[1]).Some? then Prefixed(Escaped(s[1]).value, ReadText(s[2..]))
      else Refused
    else if s[0] as int < 32 then Refused
    else Prefixed(s[0], ReadText(s[1..]))
  }

  // ---- Values (sections 3 to 6) ------------------------------------------------------------------

  /** How many of the first characters may belong to a number. */
  function NumberLength(s: string): (n: nat)
    ensures n <= |s| && forall i :: 0 <= i < n ==> s[i] in "0123456789+-.eE"
    ensures n < |s| ==> s[n] !in "0123456789+-.eE"
  {
    if s == "" || s[0] !in "0123456789+-.eE" then 0 else 1 + NumberLength(s[1..])
  }

  function ReadValue(s: string): (r: Parsed<Value>)
    ensures r.Parsed? ==> |r.rest| < |s|
    decreases |s|, 1
  {
    if s == "" then Refused
    else if s[0] == 'n' then if "null" <= s then Parsed(Null, s[4..]) else Refused
    else if s[0] == 't' then if "true" <= s then Parsed(Bool(true), s[4..]) else Refused
    else if s[0] == 'f' then if "false" <= s then Parsed(Bool(false), s[5..]) else Refused
    else if s[0] == '"' then
      var text := ReadText(s[1..]);
      if text.Refused? then Refused else Parsed(Str(text.value), text.rest)
    else if s[0] == '[' then
      if |s| > 1 && s[1] == ']' then Parsed(Arr([]), s[2..])
      else
        var items := ReadItems(s[1..]);
        if items.Refused? then Refused else Parsed(Arr(items.value), items.rest)
    else if s[0] == '{' then
      if |s| > 1 && s[1] == '}' then Parsed(Obj([]), s[2..])
      else
        var members := ReadMembers(s[1..]);
        if members.Refused? then Refused else Parsed(Obj(members.value), members.rest)
    else
      var n := NumberLength(s);
      if IsNumberText(s[..n]) then Parsed(Num(s[..n]), s[n..]) else Refused
  }

  /** The elements of an array that has some, up to its closing bracket. */
  function ReadItems(s: string): (r: Parsed<seq<Value>>)
    ensures r.Parsed? ==> |r.rest| < |s|
    decreases |s|, 2
  {
    var first := ReadValue(s);
    if first.Refused? then Refused
    else if first.rest != "" && first.rest[0] == ']' then Parsed([first.value], first.rest[1..])
    else if first.rest != "" && first.rest[0] == ',' then
      var more := ReadItems(first.rest[1..]);
      if more.Refused? then Refused else Parsed([first.value] + more.value, more.rest)
    else Refused
  }

  /** A name, a colon and a value. */
  function ReadMember(s: string): (r: Parsed<Field>)
    ensures r.Parsed? ==> |r.rest| < |s|
    decreases |s|, 2
  {
    if s == "" || s[0] != '"' then Refused
    else
      var key := ReadText(s[1..]);
      if key.Refused? || key.rest == "" || key.rest[0] != ':' then Refused
      else
        var value := ReadValue(key.rest[1..]);
        if value.Refused? then Refused else Parsed(Field(key.value, value.value), value.rest)
  }

  /** The members of an object that has some, up to its closing brace. */
  function ReadMembers(s: string): (r: Parsed<seq<Field>>)
    ensures r.Parsed? ==> |r.rest| < |s|
    decreases |s|, 3
  {
    var first := ReadMember(s);
    if first.Refused? then Refused
    else if first.rest != "" && first.rest[0] == '}' then Parsed([first.value], first.rest[1..])
    else if first.rest != "" && first.rest[0] == ',' then
      var more := ReadMembers(first.rest[1..]);
      if more.Refused? then Refused else Parsed([first.value] + more.value, more.rest)
    else Refused
  }

  // ---- Printed text reads back -------------------------------------------------------------------

  lemma HexDigitBack(n: nat)
    requires n < 16
    ensures HexNumber(HexDigit(n)) == Some(n)
  {
  }

  lemma ControlBack(c: char)
    requires c as int < 32
    ensures CodePoint('0', '0', HexDigit(c as int / 16), HexDigit(c as int % 16)) == Some(c)
  {
    HexDigitBack(c as int / 16);
    HexDigitBack(c as int % 16);
  }

  lemma CharBack(c: char, rest: string)
    ensures ReadText(EscapeChar(c) + rest) == Prefixed(c, ReadText(rest))
  {
    var s := EscapeChar(c) + rest;
    if c == '"' || c == '\\' || c as int in {8, 9, 10, 12, 13} {
      assert s[0] == '\\' && s[2..] == rest;
      assert Escaped(s[1]) == Some(c);
    } else if c as int < 32 {
      ControlBack(c);
      assert s[0] == '\\' && s[1] == 'u' && s[2] == '0' && s[3] == '0' && s[6..] == rest;
    } else {
      assert s[0] == c && s[1..] == rest;
    }
  }

  lemma {:induction false} TextBack(s: string, rest: string)
    ensures ReadText(Quoted(s) + rest) == Parsed(s, rest)
  {
    QuotedStep(s);
    if s == "" {
      assert (Quoted(s) + rest)[1..] == rest;
    } else {
      TextBack(s[1..], rest);
      CharBack(s[0], Quoted(s[1..]) + rest);
      hide Quoted, ReadText, EscapeChar;
      Regroup(EscapeChar(s[0]), Quoted(s[1..]), rest);
      assert s == [s[0]] + s[1..];
    }
  }

  lemma StartsWith(p: string, rest: string)
    ensures p <= p + rest && (p + rest)[|p|..] == rest
  {
  }

  lemma NumberStarts(text: string)
    requires IsNumberText(text)
    ensures text != "" && text[0] !in "ntf\"[{" && forall i :: 0 <= i < |text| ==> text[i] in "0123456789+-.eE"
  {
    assert text[0] == '-' || '0' <= text[0] <= '9';
  }

  /** A number ends where the first character is that cannot belong to one. */
  lemma NumberEnds(text: string, rest: string)
    requires (forall i :: 0 <= i < |text| ==> text[i] in "0123456789+-.eE") && Delimited(rest)
    ensures NumberLength(text + rest) == |text|
  {
    hide NumberLength;
    var s := text + rest;
    assert forall i :: 0 <= i < |text| ==> s[i] == text[i];
    assert rest != "" ==> s[|text|] == rest[0];
  }

  lemma NumberBack(text: string, rest: string)
    requires IsNumberText(text) && Delimited(rest)
    ensures ReadValue(text + rest) == Parsed(Num(text), rest)
  {
    hide IsNumberText;
    var s := text + rest;
    NumberStarts(text);
    NumberEnds(text, rest);
    StartsWith(text, rest);
    assert s[0] == text[0];
    assert s[..|text|] == text;
  }

  /** The three literal names. */
  lemma NameBack(rest: string)
    ensures ReadValue("null" + rest) == Parsed(Null, rest)
    ensures ReadValue("true" + rest) == Parsed(Bool(true), rest)
    ensures ReadValue("false" + rest) == Parsed(Bool(false), rest)
  {
    StartsWith("null", rest);
    StartsWith("true", rest);
    StartsWith("false", rest);
  }

  lemma {:induction false} ReadsBack(v: Value, rest: string)
    requires Data(v) && Delimited(rest)
    ensures ReadValue(Print(v) + rest) == Parsed(v, rest)
    decreases v, 1
  {
    match v
    case Num(text) => NumberBack(text, rest);
    case Str(s) =>
      TextBack(s, rest);
      Regroup("\"", Quoted(s), rest);
      hide Quoted, ReadText;
      assert ("\"" + (Quoted(s) + rest))[1..] == Quoted(s) + rest;
    case Arr(items) => ArrayBack(items, rest);
    case Obj(fields) => ObjectBack(fields, rest);
    case _ => NameBack(rest);
  }

  lemma {:induction false} ArrayBack(items: seq<Value>, rest: string)
    requires DataItems(items) && Delimited(rest)
    ensures ReadValue("[" + PrintArray(items) + rest) == Parsed(Arr(items), rest)
    decreases items, 3
  {
    var s := "[" + PrintArray(items) + rest;
    ArrayLeads(items);
    if items == [] {
      assert s[2..] == rest;
    } else {
      assert s[1] == PrintArray(items)[0];
      ItemsBack(items, rest);
      hide PrintArray, ReadItems;
      assert s[1..] == PrintArray(items) + rest;
    }
  }

  lemma {:induction false} ItemsBack(items: seq<Value>, rest: string)
    requires DataItems(items) && items != [] && Delimited(rest)
    ensures ReadItems(PrintArray(items) + rest) == Parsed(items, rest)
    decreases items, 2
  {
    hide Print, Data, ReadValue;
    var more := PrintItems(items[1..]) + rest;
    Regroup(Print(items[0]), PrintItems(items[1..]), rest);
    ReadsBack(items[0], more);
    if |items| == 1 {
      assert items[1..] == [] && more[1..] == rest && items == [items[0]];
    } else {
      ItemsAsArray(items[1..]);
      ItemsBack(items[1..], rest);
      hide PrintArray, PrintItems;
      assert more[1..] == PrintArray(items[1..]) + rest;
      assert items == [items[0]] + items[1..];
    }
  }

  lemma {:induction false} MemberBack(f: Field, rest: string)
    requires Data(f.value) && Delimited(rest)
    ensures ReadMember(PrintField(f) + rest) == Parsed(f, rest)
    decreases f, 0
  {
    hide Print, Quoted, Data, ReadValue, ReadText;
    var text := PrintField(f) + rest;
    var value := ":" + Print(f.value) + rest;
    assert text == "\"" + (Quoted(f.key) + value);
    assert text[1..] == Quoted(f.key) + value;
    TextBack(f.key, value);
    ReadsBack(f.value, rest);
    assert value[1..] == Print(f.value) + rest;
  }

  lemma {:induction false} ObjectBack(fields: seq<Field>, rest: string)
    requires DataFields(fields) && Delimited(rest)
    ensures ReadValue("{" + PrintObject(fields) + rest) == Parsed(Obj(fields), rest)
    decreases fields, 3
  {
    var s := "{" + PrintObject(fields) + rest;
    ObjectLeads(fields);
    if fields == [] {
      assert s[2..] == rest;
    } else {
      assert s[1] == PrintObject(fields)[0];
      MembersBack(fields, rest);
      hide PrintObject, ReadMembers;
      assert s[1..] == PrintObject(fields) + rest;
    }
  }

  lemma {:induction false} MembersBack(fields: seq<Field>, rest: string)
    requires DataFields(fields) && fields != [] && Delimited(rest)
    ensures ReadMembers(PrintObject(fields) + rest) == Parsed(fields, rest)
    decreases fields, 2
  {
    hide PrintField, Data, ReadMember;
    var more := PrintFields(fields[1..]) + rest;
    Regroup(PrintField(fields[0]), PrintFields(fields[1..]), rest);
    MemberBack(fields[0], more);
    if |fields| == 1 {
      assert fields[1..] == [] && more[1..] == rest && fields == [fields[0]];
    } else {
      FieldsAsObject(fields[1..]);
      MembersBack(fields[1..], rest);
      hide PrintObject, PrintFields;
      assert more[1..] == PrintObject(fields[1..]) + rest;
      assert fields == [fields[0]] + fields[1..];
    }
  }

  // ---- What canonical text says ------------------------------------------------------------------

  /** Every object, at every depth, lists its keys in order. */
  ghost predicate KeysInOrder(leq: KeyOrder, v: Value) {
    match v
    case Arr(items) => forall i :: 0 <= i < |items| ==> KeysInOrder(leq, items[i])
    case Obj(fields) =>
      && (forall i, j :: 0 <= i < j < |fields| ==> leq(fields[i].key, fields[j].key))
      && forall i :: 0 <= i < |fields| ==> KeysInOrder(leq, fields[i].value)
    case _ => true
  }

  lemma {:induction false} NormalizeOrders(leq: KeyOrder, v: Value)
    requires TotalOrder(leq) && WellFormed(v)
    ensures KeysInOrder(leq, Normalize(leq, v)) && Same(Normalize(leq, v), v)
    decreases v
  {
    match v
    case Arr(items) =>
      forall i | 0 <= i < |items|
        ensures KeysInOrder(leq, Normalize(leq, items[i])) && Same(Normalize(leq, items[i]), items[i])
      {
        NormalizeOrders(leq, items[i]);
      }
    case Obj(fields) =>
      forall f | f in fields
        ensures KeysInOrder(leq, Normalize(leq, f.value)) && Same(Normalize(leq, f.value), f.value)
      {
        NormalizeOrders(leq, f.value);
      }
      NormalizeOrdersObject(leq, fields);
    case _ =>
  }

  lemma NormalizeOrdersObject(leq: KeyOrder, fields: seq<Field>)
    requires TotalOrder(leq) && UniqueKeys(fields)
    requires forall f :: f in fields ==>
               KeysInOrder(leq, Normalize(leq, f.value)) && Same(Normalize(leq, f.value), f.value)
    ensures KeysInOrder(leq, Normalize(leq, Obj(fields))) && Same(Normalize(leq, Obj(fields)), Obj(fields))
  {
    hide SortFields, TotalOrder;
    var sorted := SortFields(leq, fields);
    var normal := Normalize(leq, Obj(fields)).fields;
    SortSorts(leq, fields);
    SortKeepsKeys(leq, fields);
    forall i | 0 <= i < |normal|
      ensures normal[i].key == sorted[i].key && KeysInOrder(leq, normal[i].value)
      ensures sorted[i] in fields && normal[i].value == Normalize(leq, sorted[i].value)
    {
      assert sorted[i] in sorted;
    }
    assert Keys(normal) == Keys(sorted);
    forall i, j | 0 <= i < |normal| && 0 <= j < |fields| && normal[i].key == fields[j].key
      ensures Same(normal[i].value, fields[j].value)
    {
      var k :| 0 <= k < |fields| && fields[k] == sorted[i];
      assert fields[k].key == fields[j].key;
    }
  }

  /**
   * Canonical text is JSON text of the value: read back it is the value, up to the order of keys at every depth, and
   * there the keys are in order. Text is refused exactly to values that hold something JSON has no text for.
   */
  lemma CanonicalTextReadsBack(leq: KeyOrder, v: Value)
    requires TotalOrder(leq) && WellFormed(v)
    ensures CanonicalJson(leq, v).Ok? <==> Serializable(v)
    ensures CanonicalJson(leq, v).Ok? ==>
              var r := ReadValue(CanonicalJson(leq, v).value);
              r.Parsed? && r.rest == "" && Same(r.value, v) && KeysInOrder(leq, r.value)
  {
    if Serializable(v) {
      NormalizeKeeps(leq, v);
      NormalizeOrders(leq, v);
      hide Print, ReadValue, Normalize, Same, KeysInOrder, WellFormed, Serializable;
      ReadsBack(Normalize(leq, v), "");
      assert Print(Normalize(leq, v)) + "" == Print(Normalize(leq, v));
    }
  }

  /** Metadata text reads back as what the metadata says: without undefined fields, other undefined values null. */
  lemma MetadataTextReadsBack(leq: KeyOrder, v: Value)
    requires TotalOrder(leq) && WellFormed(v) && Supported(v)
    ensures var r := ReadValue(MetadataJson(leq, v));
            r.Parsed? && r.rest == "" && Same(r.value, Told(v)) && KeysInOrder(leq, r.value)
  {
    hide Print, ReadValue, Normalize, Same, KeysInOrder, WellFormed, Serializable, Supported;
    ToldIsData(v);
    NormalizeNulled(leq, Defined(v));
    PrintNulled(Normalize(leq, Defined(v)));
    CanonicalTextReadsBack(leq, Told(v));
  }
}
