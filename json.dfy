/**
 * JSON values as `json.loads` produces them, and `json.dumps` (default
 * settings: `ensure_ascii=True`, separators `", "` and `": "`) for the one shape
 * the research agent serialises, the knowledge store's list of lists of
 * documents. Parsing stays an oracle: callers receive it as a function.
 */
module Json {
  import opened Strings

  /** A decoded JSON value. Numbers are kept as integers only. */
  datatype Json =
    | JNull
    | JBool(b: bool)
    | JNumber(n: int)
    | JString(s: string)
    | JArray(items: seq<Json>)
    | JObject(fields: map<string, Json>)

  /** Printable ASCII, the only characters `json.dumps` writes unescaped. */
  predicate IsPrintableAscii(c: char) { ' ' <= c <= '~' }

  predicate AllPrintableAscii(s: string) {
    forall i :: 0 <= i < |s| ==> IsPrintableAscii(s[i])
  }

  /** `\uXXXX`, four lower-case hex digits. */
  function UnicodeEscape(n: nat): string
  {
    "\\u" + Hex(n, 4)
  }

  /** How `json.dumps` writes one character of a string. */
  function EscapeChar(c: char): string
  {
    if c == '"' then "\\\""
    else if c == '\\' then "\\\\"
    else if c == '\n' then "\\n"
    else if c == '\r' then "\\r"
    else if c == '\t' then "\\t"
    else if c == '\U{8}' then "\\b"
    else if c == '\U{c}' then "\\f"
    else if IsPrintableAscii(c) then [c]
    else if c as int < 0x1_0000 then UnicodeEscape(c as int)
    else
      // outside the Basic Multilingual Plane: a UTF-16 surrogate pair
      var v := c as int - 0x1_0000;
      UnicodeEscape(0xD800 + v / 0x400) + UnicodeEscape(0xDC00 + v % 0x400)
  }

  function EscapeString(s: string): string
  {
    if |s| == 0 then "" else EscapeChar(s[0]) + EscapeString(s[1..])
  }

  /** `json.dumps(s)` for a string. */
  function DumpString(s: string): string
  {
    "\"" + EscapeString(s) + "\""
  }

  function DumpStrings(xs: seq<string>): (r: seq<string>)
    ensures |r| == |xs|
    ensures forall i :: 0 <= i < |xs| ==> r[i] == DumpString(xs[i])
  {
    if |xs| == 0 then [] else [DumpString(xs[0])] + DumpStrings(xs[1..])
  }

  /** `json.dumps(xs)` for a list of strings. */
  function DumpStringList(xs: seq<string>): string
  {
    "[" + Join(", ", DumpStrings(xs)) + "]"
  }

  function DumpStringLists(xss: seq<seq<string>>): (r: seq<string>)
    ensures |r| == |xss|
    ensures forall i :: 0 <= i < |xss| ==> r[i] == DumpStringList(xss[i])
  {
    if |xss| == 0 then [] else [DumpStringList(xss[0])] + DumpStringLists(xss[1..])
  }

  /** `json.dumps(xss)` for a list of lists of strings. */
  function DumpDocuments(xss: seq<seq<string>>): string
  {
    "[" + Join(", ", DumpStringLists(xss)) + "]"
  }

  lemma EscapeCharAscii(c: char)
    ensures AllPrintableAscii(EscapeChar(c))
  {
  }

  lemma {:induction false} EscapeStringAscii(s: string)
    ensures AllPrintableAscii(EscapeString(s))
  {
    if |s| > 0 {
      EscapeCharAscii(s[0]);
      EscapeStringAscii(s[1..]);
    }
  }

  lemma {:induction false} JoinAscii(sep: string, xs: seq<string>)
    requires AllPrintableAscii(sep)
    requires forall i :: 0 <= i < |xs| ==> AllPrintableAscii(xs[i])
    ensures AllPrintableAscii(Join(sep, xs))
  {
    if |xs| > 1 {
      JoinAscii(sep, xs[1..]);
    }
  }

  lemma DumpStringListAscii(xs: seq<string>)
    ensures AllPrintableAscii(DumpStringList(xs))
  {
    forall i | 0 <= i < |xs| ensures AllPrintableAscii(DumpString(xs[i])) {
      EscapeStringAscii(xs[i]);
    }
    JoinAscii(", ", DumpStrings(xs));
  }

  /**
   * What `json.dumps` makes of the documents: a bracketed, never empty text of
   * printable ASCII only, so no raw line break or non-ASCII character survives.
   */
  lemma DumpDocumentsShape(xss: seq<seq<string>>)
    ensures var d := DumpDocuments(xss);
      |d| >= 2 && d[0] == '[' && d[|d| - 1] == ']' && AllPrintableAscii(d)
  {
    forall i | 0 <= i < |xss| ensures AllPrintableAscii(DumpStringList(xss[i])) {
      DumpStringListAscii(xss[i]);
    }
    JoinAscii(", ", DumpStringLists(xss));
  }

  /** An empty list of documents and a list holding one empty list dump differently. */
  lemma DumpEmptyResults()
    ensures DumpDocuments([]) == "[]"
    ensures DumpDocuments([[]]) == "[[]]"
  {
  }
}
