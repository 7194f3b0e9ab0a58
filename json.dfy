/** The JSON-like values the modelled code receives from configuration
    files and HTTP responses, with Python's truthiness, `dict.get`,
    `str()`, `repr()` and `json.dumps(..., ensure_ascii=False)` on them.
    A dict is an association list in insertion order, as Python keeps it. */
module Json {
  import opened Wrappers
  import opened Text

  datatype Json =
    | JNull
    | JBool(b: bool)
    | JInt(i: int)
    | JStr(s: string)
    | JList(items: seq<Json>)
    | JObj(fields: seq<(string, Json)>)

  /** `bool(v)`. */
  predicate Truthy(v: Json) {
    match v
    case JNull => false
    case JBool(b) => b
    case JInt(i) => i != 0
    case JStr(s) => s != []
    case JList(xs) => xs != []
    case JObj(fs) => fs != []
  }

  /** `key in d` for a list of fields. */
  predicate HasKey(fs: seq<(string, Json)>, key: string) {
    exists i :: 0 <= i < |fs| && fs[i].0 == key
  }

  /** `d[key]`: the value bound to the first field named `key`. */
  function Lookup(fs: seq<(string, Json)>, key: string): (v: Json)
    requires HasKey(fs, key)
    ensures (key, v) in fs
  {
    if fs[0].0 == key then fs[0].1
    else
      assert HasKey(fs[1..], key) by {
        var i :| 0 <= i < |fs| && fs[i].0 == key;
        assert fs[1..][i - 1].0 == key;
      }
      Lookup(fs[1..], key)
  }

  /** `d.get(key)` on a dict: `None` (JNull) when the key is missing. */
  function Get(v: Json, key: string): Json
    requires v.JObj?
  {
    if HasKey(v.fields, key) then Lookup(v.fields, key) else JNull
  }

  /** `d.get(key, default)` on a dict. */
  function GetOr(v: Json, key: string, default: Json): Json
    requires v.JObj?
  {
    if HasKey(v.fields, key) then Lookup(v.fields, key) else default
  }

  /** `a or b`: the first operand when it is truthy, else the second. */
  function Or(a: Json, b: Json): (r: Json)
    ensures r == a || r == b
    ensures Truthy(r) <==> Truthy(a) || Truthy(b)
  {
    if Truthy(a) then a else b
  }

  /** The value of `v.get(k1) or v.get(k2) or ...` on a dict: the first
      truthy value, or the value for the last key. */
  function FirstTruthy(v: Json, keys: seq<string>): (r: Json)
    requires v.JObj? && keys != []
    ensures Truthy(r) <==> exists i :: 0 <= i < |keys| && Truthy(Get(v, keys[i]))
    ensures Truthy(r) ==> exists i :: 0 <= i < |keys| && r == Get(v, keys[i])
  {
    if |keys| == 1 then Get(v, keys[0])
    else
      var rest := FirstTruthy(v, keys[1..]);
      assert forall i :: 0 < i < |keys| ==> keys[i] == keys[1..][i - 1];
      Or(Get(v, keys[0]), rest)
  }

  // ---------------------------------------------------------------------
  // str(), repr(), json.dumps()
  // ---------------------------------------------------------------------

  function HexDigit(d: nat): char
    requires d < 16
  {
    if d < 10 then ('0' as int + d) as char else ('a' as int + d - 10) as char
  }

  /** `"\\x%02x"` for a character below 256. */
  function HexEscape2(c: char): string
    requires c as int < 256
  {
    ['\\', 'x', HexDigit(c as int / 16), HexDigit(c as int % 16)]
  }

  /** `repr(s)` of a string: single quotes unless the string holds a
      single quote and no double quote; backslash, the quote, tab, newline
      and carriage return escaped; the C0 controls and U+007F..U+00A0 as
      `\xNN`. */
  function ReprString(s: string): string {
    var q := if '\'' in s && '"' !in s then '"' else '\'';
    [q] + ReprChars(s, q) + [q]
  }

  function ReprChars(s: string, q: char): string {
    if s == [] then []
    else
      var c := s[0];
      var e :=
        if c == q || c == '\\' then ['\\', c]
        else if c == '\t' then "\\t"
        else if c == '\n' then "\\n"
        else if c == '\r' then "\\r"
        else if c < ' ' || ('\U{7F}' <= c <= '\U{A0}') then HexEscape2(c)
        else [c];
      e + ReprChars(s[1..], q)
  }

  /** `repr(v)`. */
  function Repr(v: Json): string {
    match v
    case JNull => "None"
    case JBool(b) => if b then "True" else "False"
    case JInt(i) => IntToString(i)
    case JStr(s) => ReprString(s)
    case JList(xs) =>
      "[" + Join(", ", seq(|xs|, k requires 0 <= k < |xs| => Repr(xs[k]))) + "]"
    case JObj(fs) =>
      "{" + Join(", ", seq(|fs|, k requires 0 <= k < |fs| =>
        ReprString(fs[k].0) + ": " + Repr(fs[k].1))) + "}"
  }

  /** `str(v)`: the text itself for a string, `repr` otherwise. */
  function PyStr(v: Json): (r: string)
    ensures v.JStr? ==> r == v.s
  {
    if v.JStr? then v.s else Repr(v)
  }

  /** `"\\u%04x"` for a character below 256. */
  function UnicodeEscape(c: char): string
    requires c as int < 256
  {
    ['\\', 'u', '0', '0', HexDigit(c as int / 16), HexDigit(c as int % 16)]
  }

  /** The body of a JSON string literal with `ensure_ascii=False`. */
  function DumpChars(s: string): string {
    if s == [] then []
    else
      var c := s[0];
      var e :=
        if c == '"' then "\\\""
        else if c == '\\' then "\\\\"
        else if c == '\n' then "\\n"
        else if c == '\r' then "\\r"
        else if c == '\t' then "\\t"
        else if c == '\U{08}' then "\\b"
        else if c == '\U{0C}' then "\\f"
        else if c < ' ' then UnicodeEscape(c)
        else [c];
      e + DumpChars(s[1..])
  }

  function DumpString(s: string): string {
    "\"" + DumpChars(s) + "\""
  }

  /** `json.dumps(v, ensure_ascii=False)` with the default separators. */
  function Dumps(v: Json): string {
    match v
    case JNull => "null"
    case JBool(b) => if b then "true" else "false"
    case JInt(i) => IntToString(i)
    case JStr(s) => DumpString(s)
    case JList(xs) =>
      "[" + Join(", ", seq(|xs|, k requires 0 <= k < |xs| => Dumps(xs[k]))) + "]"
    case JObj(fs) =>
      "{" + Join(", ", seq(|fs|, k requires 0 <= k < |fs| =>
        DumpString(fs[k].0) + ": " + Dumps(fs[k].1))) + "}"
  }
}
