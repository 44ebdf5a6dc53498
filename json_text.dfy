/**
 * The JSON text the browser's `localStorage` holds for the dashboard: flat
 * records whose fields are all strings (`JSON.stringify` of a user or of an
 * audit entry) and arrays of such records, written without white space as
 * `JSON.stringify` writes them.  `JSON.parse` is modelled for exactly this
 * shape: any other text reads as malformed.
 */
module JsonText {
  import opened Wrappers
  import opened Strings

  // ---------------------------------------------------------------------------
  // String literals

  /** A character inside a string literal: quote and backslash are escaped. */
  function EscapeChar(c: char): string {
    if c == '"' || c == '\\' then ['\\', c] else [c]
  }

  /** The body of the string literal for `v`. */
  function Escape(v: string): string {
    if v == [] then [] else EscapeChar(v[0]) + Escape(v[1..])
  }

  /** Reads a string literal whose opening quote is consumed: its value and the text after its closing quote. */
  function Unquote(s: string): (r: Option<(string, string)>)
    ensures r.Some? ==> |r.value.1| < |s|
    decreases |s|
  {
    if s == [] then None
    else if s[0] == '"' then Some(([], s[1..]))
    else if s[0] == '\\' then
      if |s| < 2 || (s[1] != '"' && s[1] != '\\') then None
      else match Unquote(s[2..])
        case None => None
        case Some(p) => Some(([s[1]] + p.0, p.1))
    else match Unquote(s[1..])
      case None => None
      case Some(p) => Some(([s[0]] + p.0, p.1))
  }

  /** A written literal reads back as its value, and reading stops at its closing quote. */
  lemma {:induction false} UnquoteEscape(v: string, rest: string)
    ensures Unquote(Escape(v) + "\"" + rest) == Some((v, rest))
  {
    var s := Escape(v) + "\"" + rest;
    if v == [] {
      assert s == "\"" + rest;
    } else {
      UnquoteEscape(v[1..], rest);
      var tail := Escape(v[1..]) + "\"" + rest;
      assert s == EscapeChar(v[0]) + tail;
      if v[0] == '"' || v[0] == '\\' {
        assert s[2..] == tail;
      } else {
        assert s[1..] == tail;
      }
      assert v == [v[0]] + v[1..];
    }
  }

  // ---------------------------------------------------------------------------
  // Records: `{"name":"value",...}` with the field names in a fixed order

  /** The text before a field's value. */
  function Key(name: string): string {
    "\"" + name + "\":\""
  }

  /** One field. */
  function Field(name: string, value: string): string {
    Key(name) + Escape(value) + "\""
  }

  /** Reads the field `name`: its value and the text after it. */
  function ReadField(name: string, s: string): (r: Option<(string, string)>)
    ensures r.Some? ==> |r.value.1| < |s|
  {
    if !StartsWith(s, Key(name)) then None else Unquote(s[|Key(name)|..])
  }

  /** A written field reads back as its value. */
  lemma ReadFieldRoundTrip(name: string, value: string, later: string)
    ensures ReadField(name, Field(name, value) + later) == Some((value, later))
  {
    var s := Field(name, value) + later;
    assert s[..|Key(name)|] == Key(name);
    assert s[|Key(name)|..] == Escape(value) + "\"" + later;
    UnquoteEscape(value, later);
  }

  /** The fields of a record separated by commas, then the closing brace. */
  function Fields(names: seq<string>, values: seq<string>): string {
    if names == [] || values == [] then "}"
    else Field(names[0], values[0]) + (if |names| == 1 then "}" else "," + Fields(names[1..], values[1..]))
  }

  /** Reads the fields named `names`, in that order, and the closing brace: their values and the text after it. */
  function ReadFields(names: seq<string>, s: string): (r: Option<(seq<string>, string)>)
    ensures r.Some? ==> |r.value.0| == |names| && |r.value.1| < |s|
  {
    if names == [] then (if s != [] && s[0] == '}' then Some(([], s[1..])) else None)
    else match ReadField(names[0], s)
      case None => None
      case Some(p) =>
        if p.1 == [] then None
        else if |names| == 1 then (if p.1[0] == '}' then Some(([p.0], p.1[1..])) else None)
        else if p.1[0] != ',' then None
        else match ReadFields(names[1..], p.1[1..])
          case None => None
          case Some(q) => Some(([p.0] + q.0, q.1))
  }

  /** Written fields read back as their values. */
  lemma {:induction false} ReadFieldsRoundTrip(names: seq<string>, values: seq<string>, rest: string)
    requires |names| == |values|
    ensures ReadFields(names, Fields(names, values) + rest) == Some((values, rest))
  {
    var s := Fields(names, values) + rest;
    if names == [] {
      assert s == "}" + rest;
    } else {
      var tail := if |names| == 1 then "}" else "," + Fields(names[1..], values[1..]);
      assert s == Field(names[0], values[0]) + (tail + rest);
      ReadFieldRoundTrip(names[0], values[0], tail + rest);
      if |names| == 1 {
        assert (tail + rest)[1..] == rest;
        assert values == [values[0]];
      } else {
        var inner := Fields(names[1..], values[1..]) + rest;
        assert tail + rest == "," + inner;
        assert (tail + rest)[1..] == inner;
        ReadFieldsRoundTrip(names[1..], values[1..], rest);
        assert values == [values[0]] + values[1..];
      }
    }
  }

  /** The text of a record. */
  function Record(names: seq<string>, values: seq<string>): string {
    "{" + Fields(names, values)
  }

  /** Reads a record with the fields `names`: its values and the text after it. */
  function ReadRecord(names: seq<string>, s: string): (r: Option<(seq<string>, string)>)
    ensures r.Some? ==> |r.value.0| == |names| && |r.value.1| < |s|
  {
    if s == [] || s[0] != '{' then None else ReadFields(names, s[1..])
  }

  /** A written record reads back as its values. */
  lemma ReadRecordRoundTrip(names: seq<string>, values: seq<string>, rest: string)
    requires |names| == |values|
    ensures ReadRecord(names, Record(names, values) + rest) == Some((values, rest))
  {
    var s := Record(names, values) + rest;
    assert s[1..] == Fields(names, values) + rest;
    ReadFieldsRoundTrip(names, values, rest);
  }

  // ---------------------------------------------------------------------------
  // Arrays of records

  predicate Shaped(names: seq<string>, recs: seq<seq<string>>) {
    forall i | 0 <= i < |recs| :: |recs[i]| == |names|
  }

  /** The records of an array separated by commas, then the closing bracket. */
  function Items(names: seq<string>, recs: seq<seq<string>>): string {
    if recs == [] then "]"
    else Record(names, recs[0]) + (if |recs| == 1 then "]" else "," + Items(names, recs[1..]))
  }

  /** The text of an array of records. */
  function Array(names: seq<string>, recs: seq<seq<string>>): string {
    "[" + Items(names, recs)
  }

  /** Reads records separated by commas up to the closing bracket: the records and the text after it. */
  function ReadItems(names: seq<string>, s: string): (r: Option<(seq<seq<string>>, string)>)
    ensures r.Some? ==> Shaped(names, r.value.0)
    decreases |s|
  {
    match ReadRecord(names, s)
    case None => None
    case Some(p) =>
      if p.1 == [] then None
      else if p.1[0] == ']' then Some(([p.0], p.1[1..]))
      else if p.1[0] == ',' then
        match ReadItems(names, p.1[1..])
        case None => None
        case Some(q) => Some(([p.0] + q.0, q.1))
      else None
  }

  /** Reads an array of records: the records and the text after it. */
  function ReadArray(names: seq<string>, s: string): (r: Option<(seq<seq<string>>, string)>)
    ensures r.Some? ==> Shaped(names, r.value.0)
  {
    if s == [] || s[0] != '[' then None
    else if |s| >= 2 && s[1] == ']' then Some(([], s[2..]))
    else ReadItems(names, s[1..])
  }

  /** A record followed by the closing bracket ends the items. */
  lemma ReadItemsLast(names: seq<string>, s: string, rec: seq<string>, rest: string)
    requires ReadRecord(names, s) == Some((rec, "]" + rest))
    ensures ReadItems(names, s) == Some(([rec], rest))
  {
    assert ("]" + rest)[1..] == rest;
  }

  /** A record followed by a comma is followed by more items. */
  lemma ReadItemsMore(names: seq<string>, s: string, rec: seq<string>, inner: string, recs: seq<seq<string>>, rest: string)
    requires ReadRecord(names, s) == Some((rec, "," + inner))
    requires ReadItems(names, inner) == Some((recs, rest))
    ensures ReadItems(names, s) == Some(([rec] + recs, rest))
  {
    assert ("," + inner)[1..] == inner;
  }

  /** A single written record followed by the closing bracket reads back as that record. */
  lemma ReadItemsOne(names: seq<string>, rec: seq<string>, rest: string)
    requires |rec| == |names|
    ensures ReadItems(names, Items(names, [rec]) + rest) == Some(([rec], rest))
  {
    var s := Items(names, [rec]) + rest;
    assert s == Record(names, rec) + ("]" + rest);
    ReadRecordRoundTrip(names, rec, "]" + rest);
    ReadItemsLast(names, s, rec, rest);
  }

  /** A written record, a comma and items that read back, read back as one record more. */
  lemma ReadItemsCons(names: seq<string>, recs: seq<seq<string>>, rest: string)
    requires |recs| >= 2 && |recs[0]| == |names|
    requires ReadItems(names, Items(names, recs[1..]) + rest) == Some((recs[1..], rest))
    ensures ReadItems(names, Items(names, recs) + rest) == Some((recs, rest))
  {
    var s := Items(names, recs) + rest;
    var inner := Items(names, recs[1..]) + rest;
    ItemsCons(names, recs, rest);
    ReadRecordRoundTrip(names, recs[0], "," + inner);
    ReadItemsMore(names, s, recs[0], inner, recs[1..], rest);
    assert recs == [recs[0]] + recs[1..];
  }

  /** The text of two or more items: the first record, a comma, then the items of the others. */
  lemma ItemsCons(names: seq<string>, recs: seq<seq<string>>, rest: string)
    requires |recs| >= 2
    ensures Items(names, recs) + rest == Record(names, recs[0]) + ("," + (Items(names, recs[1..]) + rest))
  {
    var head := Record(names, recs[0]);
    var items := Items(names, recs[1..]);
    assert Items(names, recs) == head + ("," + items);
    Regroup(head, ",", items, rest);
  }

  lemma Regroup(a: string, b: string, c: string, d: string)
    ensures (a + (b + c)) + d == a + (b + (c + d))
  {
    var l := (a + (b + c)) + d;
    var r := a + (b + (c + d));
    assert |l| == |r|;
    forall i | 0 <= i < |l|
      ensures l[i] == r[i]
    {
    }
  }

  /** Written non-empty item lists read back as their records. */
  lemma {:induction false} ReadItemsRoundTrip(names: seq<string>, recs: seq<seq<string>>, rest: string)
    requires recs != [] && Shaped(names, recs)
    ensures ReadItems(names, Items(names, recs) + rest) == Some((recs, rest))
  {
    assert |recs[0]| == |names|;
    if |recs| == 1 {
      ReadItemsOne(names, recs[0], rest);
      assert recs == [recs[0]];
    } else {
      var more := recs[1..];
      assert forall i | 0 <= i < |more| :: more[i] == recs[i + 1];
      ReadItemsRoundTrip(names, more, rest);
      ReadItemsCons(names, recs, rest);
    }
  }

  /** A written array reads back as its records. */
  lemma ReadArrayRoundTrip(names: seq<string>, recs: seq<seq<string>>, rest: string)
    requires Shaped(names, recs)
    ensures ReadArray(names, Array(names, recs) + rest) == Some((recs, rest))
  {
    var s := Array(names, recs) + rest;
    if recs == [] {
      assert s == "[]" + rest;
      assert s[2..] == rest;
    } else {
      assert s[1..] == Items(names, recs) + rest;
      assert Items(names, recs)[0] == '{';
      ReadItemsRoundTrip(names, recs, rest);
    }
  }

  // ---------------------------------------------------------------------------
  // `JSON.parse` of a whole text

  /** `JSON.parse` of a text that must be one record and nothing after it. */
  function ParseRecord(names: seq<string>, text: string): (r: Option<seq<string>>)
    ensures r.Some? ==> |r.value| == |names|
  {
    match ReadRecord(names, text)
    case None => None
    case Some(p) => if p.1 == [] then Some(p.0) else None
  }

  /** `JSON.parse` of a text that must be one array of records and nothing after it. */
  function ParseArray(names: seq<string>, text: string): (r: Option<seq<seq<string>>>)
    ensures r.Some? ==> Shaped(names, r.value)
  {
    match ReadArray(names, text)
    case None => None
    case Some(p) => if p.1 == [] then Some(p.0) else None
  }

  /** `JSON.parse(JSON.stringify(record))` is the record. */
  lemma ParseRecordRoundTrip(names: seq<string>, values: seq<string>)
    requires |names| == |values|
    ensures ParseRecord(names, Record(names, values)) == Some(values)
  {
    ReadRecordRoundTrip(names, values, []);
    assert Record(names, values) + [] == Record(names, values);
  }

  /** `JSON.parse(JSON.stringify(array))` is the array. */
  lemma ParseArrayRoundTrip(names: seq<string>, recs: seq<seq<string>>)
    requires Shaped(names, recs)
    ensures ParseArray(names, Array(names, recs)) == Some(recs)
  {
    ReadArrayRoundTrip(names, recs, []);
    assert Array(names, recs) + [] == Array(names, recs);
  }
}
