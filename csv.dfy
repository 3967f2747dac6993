/**
 * CSV escaping of one field value (frontend/lib/utils.ts). A value is
 * wrapped in double quotes, with every quote inside doubled, when it
 * contains a comma, a double quote, a line feed or a space: the rules of
 * RFC 4180, section 2, items 6 and 7, plus quoting on a bare space. A bare
 * carriage return does not trigger quoting.
 */
module Csv {
  import opened JsValues

  /** The characters whose presence makes `escapeCSV` quote its input. */
  predicate NeedsQuoting(v: string) {
    ',' in v || '"' in v || '\n' in v || ' ' in v
  }

  /** The number of double quotes in `v`. */
  function QuoteCount(v: string): nat
    decreases |v|
  {
    if v == [] then 0 else (if v[0] == '"' then 1 else 0) + QuoteCount(v[1..])
  }

  /** `v.replace(/"/g, '""')`: every double quote doubled. */
  function DoubleQuotes(v: string): (r: string)
    ensures |r| == |v| + QuoteCount(v)
    ensures ('"' in r) <==> ('"' in v)
    decreases |v|
  {
    if v == [] then []
    else
      var head := if v[0] == '"' then "\"\"" else [v[0]];
      var r := head + DoubleQuotes(v[1..]);
      assert '"' in r <==> ('"' in head || '"' in DoubleQuotes(v[1..]));
      assert '"' in v <==> (v[0] == '"' || '"' in v[1..]) by { assert v == [v[0]] + v[1..]; }
      r
  }

  function EscapeCSV(v: string): (r: string)
    ensures r == v <==> !NeedsQuoting(v)
    ensures NeedsQuoting(v) ==>
      |r| == |v| + 2 + QuoteCount(v) && r[0] == '"' && r[|r| - 1] == '"'
  {
    if NeedsQuoting(v) then "\"" + DoubleQuotes(v) + "\"" else v
  }

  /**
   * The body of a quoted field as RFC 4180 allows it: any character except
   * a double quote, or two double quotes standing for one.
   */
  predicate QuotedBody(s: string)
    decreases |s|
  {
    s == [] ||
    (s[0] != '"' && QuotedBody(s[1..])) ||
    (|s| >= 2 && s[0] == '"' && s[1] == '"' && QuotedBody(s[2..]))
  }

  /** Reads a quoted body back: each pair of double quotes becomes one. */
  function CollapseQuotes(s: string): (r: string)
    decreases |s|
  {
    if s == [] then []
    else if |s| >= 2 && s[0] == '"' && s[1] == '"' then "\"" + CollapseQuotes(s[2..])
    else [s[0]] + CollapseQuotes(s[1..])
  }

  /** A CSV reader for one field: strip the outer quotes and collapse `""` to `"`. */
  function UnescapeCSV(e: string): string {
    if |e| >= 2 && e[0] == '"' && e[|e| - 1] == '"' then CollapseQuotes(e[1..|e| - 1]) else e
  }

  lemma {:induction false} DoubleQuotesIsQuotedBody(v: string)
    ensures QuotedBody(DoubleQuotes(v))
    decreases |v|
  {
    if v != [] {
      DoubleQuotesIsQuotedBody(v[1..]);
      var rest := DoubleQuotes(v[1..]);
      if v[0] == '"' {
        assert DoubleQuotes(v) == "\"\"" + rest;
        assert ("\"\"" + rest)[2..] == rest;
      } else {
        assert DoubleQuotes(v) == [v[0]] + rest;
        assert ([v[0]] + rest)[1..] == rest;
      }
    }
  }

  lemma {:induction false} CollapseDoubleQuotes(v: string)
    ensures CollapseQuotes(DoubleQuotes(v)) == v
    decreases |v|
  {
    if v != [] {
      CollapseDoubleQuotes(v[1..]);
      var rest := DoubleQuotes(v[1..]);
      if v[0] == '"' {
        assert DoubleQuotes(v) == "\"\"" + rest;
        assert ("\"\"" + rest)[2..] == rest;
      } else {
        assert DoubleQuotes(v) == [v[0]] + rest;
        assert ([v[0]] + rest)[1..] == rest;
      }
      assert v == [v[0]] + v[1..];
    }
  }

  /** The quoted output of `escapeCSV` is a well-formed RFC 4180 escaped field. */
  lemma EscapedFieldIsWellFormed(v: string)
    requires NeedsQuoting(v)
    ensures var e := EscapeCSV(v); |e| >= 2 && e[0] == '"' && e[|e| - 1] == '"' && QuotedBody(e[1..|e| - 1])
  {
    var e := EscapeCSV(v);
    assert e[1..|e| - 1] == DoubleQuotes(v);
    DoubleQuotesIsQuotedBody(v);
  }

  /** Reading an escaped value back gives the original value. */
  lemma EscapeRoundTrip(v: string)
    ensures UnescapeCSV(EscapeCSV(v)) == v
  {
    if NeedsQuoting(v) {
      var e := EscapeCSV(v);
      assert e[1..|e| - 1] == DoubleQuotes(v);
      CollapseDoubleQuotes(v);
    } else if |v| >= 2 {
      assert v[0] in v;
    }
  }

  /** A carriage return neither triggers nor prevents quoting. */
  lemma CarriageReturnDoesNotQuote(a: string, b: string)
    ensures NeedsQuoting(a + "\r" + b) == NeedsQuoting(a + b)
    ensures EscapeCSV("\r") == "\r"
  {
    var s, t := a + "\r" + b, a + b;
    forall c | c != '\r'
      ensures (c in s) <==> (c in t)
    {
      if c in s {
        var i :| 0 <= i < |s| && s[i] == c;
        if i < |a| { assert t[i] == c; } else { assert t[i - 1] == c; }
      }
      if c in t {
        var i :| 0 <= i < |t| && t[i] == c;
        if i < |a| { assert s[i] == c; } else { assert s[i + 1] == c; }
      }
    }
  }

  /** Quote doubling works character by character, so it distributes over concatenation. */
  lemma {:induction false} DoubleQuotesAppend(a: string, b: string)
    ensures DoubleQuotes(a + b) == DoubleQuotes(a) + DoubleQuotes(b)
    decreases |a|
  {
    if a == [] {
      assert a + b == b;
    } else {
      var head := if a[0] == '"' then "\"\"" else [a[0]];
      assert (a + b)[0] == a[0];
      assert (a + b)[1..] == a[1..] + b;
      assert DoubleQuotes(a + b) == head + DoubleQuotes(a[1..] + b);
      DoubleQuotesAppend(a[1..], b);
      assert DoubleQuotes(a) == head + DoubleQuotes(a[1..]);
    }
  }

  /** A value without double quotes is left as it is by the doubling. */
  lemma {:induction false} DoubleQuotesNoQuote(v: string)
    requires '"' !in v
    ensures DoubleQuotes(v) == v
    decreases |v|
  {
    if v != [] {
      assert forall c :: c in v[1..] ==> c in v;
      DoubleQuotesNoQuote(v[1..]);
      assert v == [v[0]] + v[1..];
    }
  }

  /** A value that needs quoting but holds no double quote is only wrapped in quotes. */
  lemma EscapeWithoutQuotes(v: string)
    requires NeedsQuoting(v) && '"' !in v
    ensures EscapeCSV(v) == "\"" + v + "\""
  {
    DoubleQuotesNoQuote(v);
  }

  /** The pieces of "Acme, Inc. \"East\"" between its double quotes. */
  lemma AcmePieces(v: string)
    requires v == "Acme, Inc. \"East\""
    ensures v == "Acme, Inc. " + "\"" + "East" + "\""
    ensures NeedsQuoting(v) && '"' !in "Acme, Inc. " && '"' !in "East"
  {
    assert v[4] == ',';
    var head, tail := "Acme, Inc. ", "East";
    assert forall i :: 0 <= i < |head| ==> head[i] != '"';
    assert forall i :: 0 <= i < |tail| ==> tail[i] != '"';
  }

  lemma AcmeEscapedText(head: string, tail: string)
    requires head == "Acme, Inc. " && tail == "East"
    ensures "\"" + (head + "\"\"" + tail + "\"\"") + "\"" == "\"Acme, Inc. \"\"East\"\"\""
  {
  }

  /** Quoting a value made of quote-free text around two double quotes. */
  lemma EscapeAroundQuotes(a: string, b: string)
    requires '"' !in a && '"' !in b
    ensures EscapeCSV(a + "\"" + b + "\"") == "\"" + (a + "\"\"" + b + "\"\"") + "\""
  {
    var v := a + "\"" + b + "\"";
    assert v[|a|] == '"';
    DoubleQuotesAppend(a + "\"" + b, "\"");
    DoubleQuotesAppend(a + "\"", b);
    DoubleQuotesAppend(a, "\"");
    DoubleQuotesNoQuote(a);
    DoubleQuotesNoQuote(b);
    assert DoubleQuotes("\"") == "\"\"";
  }

  /** A value with a comma and quotes is quoted, its quotes doubled. */
  lemma EscapeCommaAndQuotes(v: string)
    requires v == "Acme, Inc. \"East\""
    ensures EscapeCSV(v) == "\"Acme, Inc. \"\"East\"\"\""
  {
    AcmePieces(v);
    EscapeAroundQuotes("Acme, Inc. ", "East");
    AcmeEscapedText("Acme, Inc. ", "East");
  }

  /** "New York" holds a space and no double quote. */
  lemma NewYorkNeedsQuoting(v: string)
    requires v == "New York"
    ensures NeedsQuoting(v) && '"' !in v
  {
    assert v[3] == ' ';
    assert forall i :: 0 <= i < |v| ==> v[i] != '"';
  }

  /** A value whose only special character is a space is quoted as well. */
  lemma EscapeBareSpace(v: string)
    requires v == "New York"
    ensures EscapeCSV(v) == "\"" + v + "\""
  {
    NewYorkNeedsQuoting(v);
    EscapeWithoutQuotes(v);
  }

  /** A value with no special character is emitted unquoted. */
  lemma EscapePlain(v: string)
    requires v == "123"
    ensures EscapeCSV(v) == "123"
  {
    assert forall i :: 0 <= i < |v| ==> v[i] !in {',', '"', '\n', ' '};
  }

  /**
   * `getCSVValue(data, fieldName)`: a missing key, `undefined` or `null`
   * gives the empty string; any other value is escaped in its `String()`
   * form, so `0` and `false` give "0" and "false".
   */
  function GetCSVValue(data: map<string, JsValue>, fieldName: string): (r: string)
    ensures r == "" <==> Get(data, fieldName) in {Undefined, Null, Str("")}
    ensures Get(data, fieldName) !in {Undefined, Null} ==>
      r == EscapeCSV(ToJsString(Get(data, fieldName))) &&
      UnescapeCSV(r) == ToJsString(Get(data, fieldName))
  {
    var value := Get(data, fieldName);
    if value == Undefined || value == Null then ""
    else
      EscapeRoundTrip(ToJsString(value));
      EscapeCSV(ToJsString(value))
  }

  /** Zero and false are exported as text, not dropped. */
  lemma FalsyValuesExported(data: map<string, JsValue>, fieldName: string)
    requires Get(data, fieldName) in {Num(0), Bool(false)}
    ensures GetCSVValue(data, fieldName) == (if Get(data, fieldName) == Num(0) then "0" else "false")
  {
    assert !NeedsQuoting("0");
    assert !NeedsQuoting("false");
  }
}
