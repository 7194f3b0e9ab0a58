/** The Python string and path operations the modelled code relies on:
    `str.strip`, `str.lower`, `str.split`, `str.splitlines`, `str.join`,
    `int(str)`, `str(int)`, code-point ordering and `sorted`, the
    `pathlib` name/stem/suffix properties and the `{name}` subset of
    `str.format`. */
module Text {
  import opened Wrappers

  // ---------------------------------------------------------------------
  // Character classes
  // ---------------------------------------------------------------------

  /** The characters for which Python's `str.isspace()` holds. */
  predicate IsSpace(c: char) {
    c == ' ' || ('\t' <= c <= '\r') || ('\U{1C}' <= c <= '\U{1F}')
    || c == '\U{85}' || c == '\U{A0}' || c == '\U{1680}'
    || ('\U{2000}' <= c <= '\U{200A}') || c == '\U{2028}' || c == '\U{2029}'
    || c == '\U{202F}' || c == '\U{205F}' || c == '\U{3000}'
  }

  /** The line boundaries of Python's `str.splitlines()` (`\r\n` is one). */
  predicate IsLineBreak(c: char) {
    c == '\n' || c == '\r' || c == '\U{0B}' || c == '\U{0C}'
    || ('\U{1C}' <= c <= '\U{1E}') || c == '\U{85}' || c == '\U{2028}' || c == '\U{2029}'
  }

  predicate IsDigit(c: char) { '0' <= c <= '9' }

  /** A string made only of whitespace (the empty string included): the
      strings whose `strip()` is falsy. */
  predicate Blank(s: string) {
    forall i :: 0 <= i < |s| ==> IsSpace(s[i])
  }

  // ---------------------------------------------------------------------
  // strip / lower
  // ---------------------------------------------------------------------

  /** `s.lstrip()`: the suffix left after dropping leading whitespace. */
  function LStrip(s: string): (r: string)
    ensures |r| <= |s| && r == s[|s| - |r|..]
    ensures forall i :: 0 <= i < |s| - |r| ==> IsSpace(s[i])
    ensures r != [] ==> !IsSpace(r[0])
  {
    if s != [] && IsSpace(s[0]) then LStrip(s[1..]) else s
  }

  /** `s.rstrip()`: the prefix left after dropping trailing whitespace. */
  function RStrip(s: string): (r: string)
    ensures |r| <= |s| && r == s[..|r|]
    ensures forall i :: |r| <= i < |s| ==> IsSpace(s[i])
    ensures r != [] ==> !IsSpace(r[|r| - 1])
  {
    if s != [] && IsSpace(s[|s| - 1]) then RStrip(s[..|s| - 1]) else s
  }

  /** `s.strip()`. */
  function Strip(s: string): (r: string)
    ensures |r| <= |s|
    ensures r == [] <==> Blank(s)
    ensures r != [] ==> !IsSpace(r[0]) && !IsSpace(r[|r| - 1])
  {
    var l := LStrip(s);
    var r := RStrip(l);
    assert r != [] ==> r[0] == l[0];
    r
  }

  lemma {:induction false} StripIdempotent(s: string)
    ensures Strip(Strip(s)) == Strip(s)
  {
    var r := Strip(s);
    assert LStrip(r) == r;
    assert RStrip(r) == r;
  }

  lemma StripOfUnpadded(s: string)
    requires s == [] || (!IsSpace(s[0]) && !IsSpace(s[|s| - 1]))
    ensures Strip(s) == s
  {
    assert LStrip(s) == s;
  }

  function LowerChar(c: char): (r: char)
    ensures !('A' <= r <= 'Z')
  {
    if 'A' <= c <= 'Z' then (c as int + 32) as char else c
  }

  /** `s.lower()` on the ASCII letters; other characters are kept. */
  function Lower(s: string): string {
    seq(|s|, i requires 0 <= i < |s| => LowerChar(s[i]))
  }

  /** Lower-casing maps each character on its own and keeps the length. */
  lemma {:induction false} LowerChars(s: string)
    ensures |Lower(s)| == |s|
    ensures forall i :: 0 <= i < |s| ==> Lower(s)[i] == LowerChar(s[i])
  {
    if s != [] {
      LowerChars(s[1..]);
      assert forall i :: 0 < i < |s| ==> Lower(s)[i] == Lower(s[1..])[i - 1] && s[i] == s[1..][i - 1];
    }
  }

  lemma LowerIdempotent(s: string)
    ensures Lower(Lower(s)) == Lower(s)
  {
    LowerChars(s);
    LowerChars(Lower(s));
    assert forall i :: 0 <= i < |s| ==> LowerChar(LowerChar(s[i])) == LowerChar(s[i]);
  }

  predicate HasNoUpper(s: string) {
    forall i :: 0 <= i < |s| ==> !('A' <= s[i] <= 'Z')
  }

  lemma LowerHasNoUpper(s: string)
    ensures HasNoUpper(Lower(s))
  {
    LowerChars(s);
  }

  lemma LowerOfLower(s: string)
    requires HasNoUpper(s)
    ensures Lower(s) == s
  {
    LowerChars(s);
  }

  /** Lower-casing neither creates nor removes whitespace. */
  lemma LowerCharSpace(c: char)
    ensures IsSpace(LowerChar(c)) <==> IsSpace(c)
  {
  }

  /** Lower-casing commutes with stripping. */
  lemma {:induction false} LowerStrip(s: string)
    ensures Strip(Lower(s)) == Lower(Strip(s))
  {
    LowerLStrip(s);
    LowerRStrip(LStrip(s));
  }

  lemma {:induction false} LowerLStrip(s: string)
    ensures LStrip(Lower(s)) == Lower(LStrip(s))
    decreases |s|
  {
    LowerChars(s);
    if s != [] {
      LowerCharSpace(s[0]);
      if IsSpace(s[0]) {
        LowerChars(s[1..]);
        assert Lower(s)[1..] == Lower(s[1..]);
        LowerLStrip(s[1..]);
      }
    }
  }

  lemma {:induction false} LowerRStrip(s: string)
    ensures RStrip(Lower(s)) == Lower(RStrip(s))
    decreases |s|
  {
    LowerChars(s);
    if s != [] {
      LowerCharSpace(s[|s| - 1]);
      if IsSpace(s[|s| - 1]) {
        LowerChars(s[..|s| - 1]);
        assert Lower(s)[..|s| - 1] == Lower(s[..|s| - 1]);
        LowerRStrip(s[..|s| - 1]);
      }
    }
  }

  // ---------------------------------------------------------------------
  // Searching, joining and splitting
  // ---------------------------------------------------------------------

  /** The first position of `c` in `s`. */
  function IndexOf(s: string, c: char): (i: nat)
    requires c in s
    ensures i < |s| && s[i] == c && c !in s[..i]
  {
    if s[0] == c then 0 else 1 + IndexOf(s[1..], c)
  }

  /** Python's `s[:n]`: a negative `n` counts from the end. */
  function PyTake(s: string, n: int): (r: string)
    ensures |r| <= |s| && r == s[..|r|]
    ensures n >= 0 ==> |r| == if n <= |s| then n else |s|
    ensures n < 0 ==> |r| == if |s| + n >= 0 then |s| + n else 0
  {
    if n >= 0 then (if n <= |s| then s[..n] else s)
    else if |s| + n >= 0 then s[..|s| + n]
    else []
  }

  /** `sep.join(parts)`. */
  function Join(sep: string, parts: seq<string>): (r: string)
    ensures parts == [] ==> r == []
    ensures |parts| == 1 ==> r == parts[0]
  {
    if |parts| == 0 then [] else if |parts| == 1 then parts[0]
    else parts[0] + sep + Join(sep, parts[1..])
  }

  /** `[p for p in parts if p]`. */
  function NonEmpty(parts: seq<string>): (r: seq<string>)
    ensures |r| <= |parts|
    ensures forall i :: 0 <= i < |r| ==> r[i] != [] && r[i] in parts
    ensures forall p :: p in parts && p != [] ==> p in r
  {
    if parts == [] then []
    else if parts[0] == [] then NonEmpty(parts[1..])
    else [parts[0]] + NonEmpty(parts[1..])
  }

  /** `s.split(sep)` for a one-character separator: never empty. */
  function Split(s: string, sep: char): (r: seq<string>)
    ensures |r| >= 1
    ensures forall i :: 0 <= i < |r| ==> sep !in r[i]
    decreases |s|
  {
    if sep in s then
      var i := IndexOf(s, sep);
      [s[..i]] + Split(s[i + 1..], sep)
    else [s]
  }

  /** Splitting and joining back with the same separator gives the input. */
  lemma {:induction false} SplitJoin(s: string, sep: char)
    ensures Join([sep], Split(s, sep)) == s
    decreases |s|
  {
    if sep in s {
      var i := IndexOf(s, sep);
      SplitJoin(s[i + 1..], sep);
      var rest := Split(s[i + 1..], sep);
      assert Split(s, sep) == [s[..i]] + rest;
      assert ([s[..i]] + rest)[1..] == rest;
      calc {
        Join([sep], Split(s, sep));
        s[..i] + [sep] + Join([sep], rest);
        s[..i] + [sep] + s[i + 1..];
        { assert s == s[..i] + [s[i]] + s[i + 1..]; }
        s;
      }
    }
  }

  /** `s.split(sep, maxsplit=1)` unpacked into two names: `None` when the
      separator is missing (Python raises ValueError there). */
  function SplitOnce(s: string, sep: char): (r: Option<(string, string)>)
    ensures r.None? <==> sep !in s
    ensures r.Some? ==> sep !in r.value.0 && r.value.0 + [sep] + r.value.1 == s
  {
    if sep in s then
      var i := IndexOf(s, sep);
      assert s == s[..i] + [sep] + s[i + 1..];
      Some((s[..i], s[i + 1..]))
    else None
  }

  /** Splitting text whose first separator sits right after `a`. */
  lemma SplitOnceAt(a: string, sep: char, b: string)
    requires sep !in a
    ensures SplitOnce(a + [sep] + b, sep) == Some((a, b))
  {
    var s := a + [sep] + b;
    assert s[..|a|] == a;
    assert s[|a|] == sep;
    var i := IndexOf(s, sep);
    assert forall k :: 0 <= k < i ==> s[k] != sep by {
      forall k | 0 <= k < i ensures s[k] != sep { assert s[..i][k] == s[k]; }
    }
    assert forall k :: 0 <= k < |a| ==> s[k] != sep by {
      forall k | 0 <= k < |a| ensures s[k] != sep { assert a[k] == s[k]; }
    }
    assert i == |a|;
    assert s[i + 1..] == b;
  }

  /** The position of the first line boundary, `|s|` when there is none. */
  function BreakIndex(s: string): (i: nat)
    ensures i <= |s|
    ensures i < |s| ==> IsLineBreak(s[i])
    ensures forall j :: 0 <= j < i ==> !IsLineBreak(s[j])
  {
    if s == [] then 0 else if IsLineBreak(s[0]) then 0 else 1 + BreakIndex(s[1..])
  }

  /** `s.splitlines()`: the lines without their boundaries, no trailing
      empty line for a final boundary, `[]` for the empty string. */
  function SplitLines(s: string): (r: seq<string>)
    ensures r == [] <==> s == []
    ensures forall k, j :: 0 <= k < |r| && 0 <= j < |r[k]| ==> !IsLineBreak(r[k][j])
    decreases |s|
  {
    if s == [] then []
    else
      var i := BreakIndex(s);
      if i == |s| then [s]
      else
        var rest := if s[i] == '\r' && i + 1 < |s| && s[i + 1] == '\n' then s[i + 2..] else s[i + 1..];
        [s[..i]] + SplitLines(rest)
  }

  /** A string that does not start with a line boundary has a non-empty
      first line, and that line is a prefix of it. */
  lemma FirstLine(s: string)
    requires s != [] && !IsLineBreak(s[0])
    ensures SplitLines(s) != [] && SplitLines(s)[0] != []
    ensures SplitLines(s)[0] == s[..|SplitLines(s)[0]|]
  {
  }

  // ---------------------------------------------------------------------
  // Integers
  // ---------------------------------------------------------------------

  function DigitValue(c: char): nat
    requires IsDigit(c)
  {
    c as int - '0' as int
  }

  /** Python's literal digit syntax: digits, single underscores only
      between digits. */
  predicate ValidDigits(t: string) {
    && t != [] && IsDigit(t[0]) && IsDigit(t[|t| - 1])
    && (forall i :: 0 <= i < |t| ==> IsDigit(t[i]) || t[i] == '_')
    && (forall i :: 0 <= i < |t| - 1 ==> !(t[i] == '_' && t[i + 1] == '_'))
  }

  /** The value of a digit string, underscores skipped. */
  function DigitsValue(t: string): nat
    requires forall i :: 0 <= i < |t| ==> IsDigit(t[i]) || t[i] == '_'
  {
    if t == [] then 0
    else if t[|t| - 1] == '_' then DigitsValue(t[..|t| - 1])
    else DigitsValue(t[..|t| - 1]) * 10 + DigitValue(t[|t| - 1])
  }

  /** `int(s)` for a string: surrounding whitespace, an optional sign and
      decimal digits with underscores; `None` where Python raises
      ValueError. */
  function ParseInt(s: string): (r: Option<int>)
    ensures r.Some? ==> Strip(s) != []
  {
    var t := Strip(s);
    if t == [] then None
    else if t[0] == '+' || t[0] == '-' then
      if ValidDigits(t[1..]) then
        var n: int := DigitsValue(t[1..]);
        Some(if t[0] == '-' then -n else n)
      else None
    else if ValidDigits(t) then Some(DigitsValue(t))
    else None
  }

  function DigitChar(d: nat): (c: char)
    requires d < 10
    ensures IsDigit(c) && DigitValue(c) == d
  {
    ('0' as int + d) as char
  }

  /** `str(n)` for a natural number. */
  function NatToString(n: nat): (r: string)
    ensures r != [] && forall i :: 0 <= i < |r| ==> IsDigit(r[i])
    ensures |r| > 1 ==> r[0] != '0'
  {
    if n < 10 then [DigitChar(n)] else NatToString(n / 10) + [DigitChar(n % 10)]
  }

  /** `str(n)` for an integer. */
  function IntToString(n: int): (r: string)
    ensures r != []
  {
    if n < 0 then "-" + NatToString(-n) else NatToString(n)
  }

  lemma {:induction false} NatToStringValue(n: nat)
    ensures DigitsValue(NatToString(n)) == n
  {
    if n >= 10 {
      NatToStringValue(n / 10);
      var s := NatToString(n);
      assert s[..|s| - 1] == NatToString(n / 10);
    }
  }

  /** The decimal text of a natural number is its own strip and a valid
      digit string. */
  lemma NatTextParses(m: nat)
    ensures Strip(NatToString(m)) == NatToString(m)
    ensures ValidDigits(NatToString(m)) && DigitsValue(NatToString(m)) == m
  {
    var d := NatToString(m);
    NatToStringValue(m);
    assert IsDigit(d[0]) && IsDigit(d[|d| - 1]);
    StripOfUnpadded(d);
  }

  /** `int(str(n)) == n`. */
  lemma IntRoundTrip(n: int)
    ensures ParseInt(IntToString(n)) == Some(n)
  {
    var m: nat := if n < 0 then -n else n;
    var d := NatToString(m);
    NatTextParses(m);
    var s := IntToString(n);
    if n < 0 {
      assert s == "-" + d;
      assert IsDigit(s[|s| - 1]);
      StripOfUnpadded(s);
      assert s[1..] == d;
    } else {
      assert s == d && !(s[0] == '+' || s[0] == '-');
    }
  }

  // ---------------------------------------------------------------------
  // Code-point order and sorting
  // ---------------------------------------------------------------------

  /** Python's `<=` on strings: lexicographic by code point, a prefix
      first. */
  predicate LexLe(a: string, b: string) {
    a == [] || (b != [] && (a[0] < b[0] || (a[0] == b[0] && LexLe(a[1..], b[1..]))))
  }

  lemma {:induction false} LexLeTotal(a: string, b: string)
    ensures LexLe(a, b) || LexLe(b, a)
  {
    if a != [] && b != [] && a[0] == b[0] { LexLeTotal(a[1..], b[1..]); }
  }

  lemma {:induction false} LexLeTrans(a: string, b: string, c: string)
    requires LexLe(a, b) && LexLe(b, c)
    ensures LexLe(a, c)
  {
    if a != [] && a[0] == b[0] && b[0] == c[0] { LexLeTrans(a[1..], b[1..], c[1..]); }
  }

  lemma {:induction false} LexLeAntisym(a: string, b: string)
    requires LexLe(a, b) && LexLe(b, a)
    ensures a == b
  {
    if a != [] {
      LexLeAntisym(a[1..], b[1..]);
      assert a == [a[0]] + a[1..];
      assert b == [b[0]] + b[1..];
    }
  }

  lemma LexLeRefl(a: string)
    ensures LexLe(a, a)
  {
  }

  ghost predicate SortedBy<T>(xs: seq<T>, key: T -> string) {
    forall i, j :: 0 <= i < j < |xs| ==> LexLe(key(xs[i]), key(xs[j]))
  }

  /** An element no greater than the head of a sorted list may go in front. */
  lemma InsertFrontSorted<T>(x: T, xs: seq<T>, key: T -> string)
    requires SortedBy(xs, key) && xs != [] && LexLe(key(x), key(xs[0]))
    ensures SortedBy([x] + xs, key)
  {
    forall j | 0 < j < |xs| + 1 ensures LexLe(key(x), key(([x] + xs)[j])) {
      if j > 1 { LexLeTrans(key(x), key(xs[0]), key(xs[j - 1])); }
    }
  }

  /** The head of a sorted list may go in front of a sorted list made of
      its tail and an element greater than the head. */
  lemma InsertBehindSorted<T>(x: T, xs: seq<T>, tail: seq<T>, key: T -> string)
    requires SortedBy(xs, key) && xs != [] && !LexLe(key(x), key(xs[0]))
    requires SortedBy(tail, key) && multiset(tail) == multiset(xs[1..]) + multiset{x}
    ensures SortedBy([xs[0]] + tail, key)
  {
    LexLeTotal(key(x), key(xs[0]));
    forall j | 0 <= j < |tail| ensures LexLe(key(xs[0]), key(tail[j])) {
      assert tail[j] in multiset(tail);
      if tail[j] != x {
        assert tail[j] in multiset(xs[1..]);
        var k :| 0 <= k < |xs[1..]| && xs[1..][k] == tail[j];
        assert xs[k + 1] == tail[j];
      }
    }
    forall i, j | 0 <= i < j < |tail| + 1 ensures LexLe(key(([xs[0]] + tail)[i]), key(([xs[0]] + tail)[j])) {
      if i > 0 {
        assert ([xs[0]] + tail)[i] == tail[i - 1];
      }
      assert ([xs[0]] + tail)[j] == tail[j - 1];
    }
  }

  function InsertBy<T>(x: T, xs: seq<T>, key: T -> string): (r: seq<T>)
    requires SortedBy(xs, key)
    ensures SortedBy(r, key)
    ensures multiset(r) == multiset(xs) + multiset{x}
  {
    if xs == [] then [x]
    else if LexLe(key(x), key(xs[0])) then
      InsertFrontSorted(x, xs, key);
      [x] + xs
    else
      var tail := InsertBy(x, xs[1..], key);
      InsertBehindSorted(x, xs, tail, key);
      assert xs == [xs[0]] + xs[1..];
      [xs[0]] + tail
  }

  /** `sorted(xs, key=key)` (insertion sort; ties keep one of the orders
      Python may produce). */
  function SortBy<T>(xs: seq<T>, key: T -> string): (r: seq<T>)
    ensures SortedBy(r, key)
    ensures multiset(r) == multiset(xs)
  {
    if xs == [] then [] else
      assert xs == [xs[0]] + xs[1..];
      InsertBy(xs[0], SortBy(xs[1..], key), key)
  }

  /** `list(reversed(xs))`. */
  function Reverse<T>(xs: seq<T>): (r: seq<T>)
    ensures |r| == |xs|
    ensures forall i :: 0 <= i < |xs| ==> r[i] == xs[|xs| - 1 - i]
  {
    if xs == [] then [] else Reverse(xs[1..]) + [xs[0]]
  }

  lemma {:induction false} ReverseMultiset<T>(xs: seq<T>)
    ensures multiset(Reverse(xs)) == multiset(xs)
  {
    if xs != [] {
      ReverseMultiset(xs[1..]);
      assert xs == [xs[0]] + xs[1..];
    }
  }

  function Identity(s: string): string { s }

  /** `sorted(xs)` for strings. */
  function Sorted(xs: seq<string>): (r: seq<string>)
    ensures SortedBy(r, Identity)
    ensures multiset(r) == multiset(xs)
  {
    SortBy(xs, Identity)
  }

  // ---------------------------------------------------------------------
  // pathlib
  // ---------------------------------------------------------------------

  function LastComponent(parts: seq<string>): (r: string)
    ensures r == [] || r in parts
  {
    if parts == [] then []
    else if parts[|parts| - 1] != [] && parts[|parts| - 1] != "." then parts[|parts| - 1]
    else LastComponent(parts[..|parts| - 1])
  }

  /** `Path(p).name`: the last component, ignoring empty and `.` parts. */
  function PathName(p: string): (r: string)
    ensures '/' !in r
  {
    var parts := Split(p, '/');
    var r := LastComponent(parts);
    assert r != [] ==> exists i :: 0 <= i < |parts| && parts[i] == r;
    r
  }

  /** The position of the last `.` of `name`, `-1` when there is none. */
  function LastDot(name: string): (i: int)
    ensures -1 <= i < |name|
    ensures i >= 0 ==> name[i] == '.'
    ensures forall j :: i < j < |name| ==> name[j] != '.'
  {
    if name == [] then -1
    else if name[|name| - 1] == '.' then |name| - 1
    else LastDot(name[..|name| - 1])
  }

  /** `Path.suffix` of a file name: from the last dot on, unless the dot
      leads or ends the name. */
  function Suffix(name: string): (r: string)
    ensures r != [] ==> r[0] == '.' && 2 <= |r| <= |name| && r == name[|name| - |r|..]
  {
    var i := LastDot(name);
    if 0 < i < |name| - 1 then name[i..] else ""
  }

  /** `Path.stem` of a file name: the name without its `Suffix`. */
  function Stem(name: string): (r: string)
    ensures r + Suffix(name) == name
  {
    var i := LastDot(name);
    if 0 < i < |name| - 1 then
      assert name == name[..i] + name[i..];
      name[..i]
    else name
  }

  // ---------------------------------------------------------------------
  // str.format with keyword fields
  // ---------------------------------------------------------------------

  datatype Piece = Lit(c: char) | Field(name: string)

  function PrependPiece(p: Piece, rest: Option<seq<Piece>>): Option<seq<Piece>> {
    match rest
    case None => None
    case Some(ps) => Some([p] + ps)
  }

  /** The replacement fields and literal characters of a format string;
      `None` for an unmatched or nested brace (Python's ValueError). */
  function ParseFormat(t: string): (r: Option<seq<Piece>>)
    decreases |t|
  {
    if t == [] then Some([])
    else if t[0] == '{' then
      if |t| >= 2 && t[1] == '{' then PrependPiece(Lit('{'), ParseFormat(t[2..]))
      else if '}' in t[1..] then
        var j := IndexOf(t[1..], '}');
        var name := t[1..1 + j];
        if '{' in name then None else PrependPiece(Field(name), ParseFormat(t[j + 2..]))
      else None
    else if t[0] == '}' then
      if |t| >= 2 && t[1] == '}' then PrependPiece(Lit('}'), ParseFormat(t[2..])) else None
    else PrependPiece(Lit(t[0]), ParseFormat(t[1..]))
  }

  /** Substitutes the keyword arguments; `None` for a field that names no
      argument (Python's KeyError or IndexError). */
  function Render(ps: seq<Piece>, env: map<string, string>): Option<string> {
    if ps == [] then Some([])
    else
      match Render(ps[1..], env)
      case None => None
      case Some(rest) =>
        match ps[0]
        case Lit(c) => Some([c] + rest)
        case Field(n) => if n in env then Some(env[n] + rest) else None
  }

  /** `template.format(**env)`. Conversions (`!r`) and format specs
      (`:>8`) are not interpreted: such a field names no argument. */
  function Format(template: string, env: map<string, string>): Option<string> {
    match ParseFormat(template)
    case None => None
    case Some(ps) => Render(ps, env)
  }

  predicate NoBraces(s: string) { '{' !in s && '}' !in s }

  /** A template without braces formats to itself. */
  lemma {:induction false} FormatPlain(t: string, env: map<string, string>)
    requires NoBraces(t)
    ensures Format(t, env) == Some(t)
    decreases |t|
  {
    if t != [] {
      FormatPlain(t[1..], env);
      assert ParseFormat(t) == PrependPiece(Lit(t[0]), ParseFormat(t[1..]));
      var ps := ParseFormat(t[1..]).value;
      assert ([Lit(t[0])] + ps)[1..] == ps;
      assert t == [t[0]] + t[1..];
    }
  }

  /** `"{name}" + rest` puts the argument in front of the formatted rest. */
  lemma FormatField(name: string, rest: string, env: map<string, string>)
    requires NoBraces(name) && name in env
    requires Format(rest, env).Some?
    ensures Format("{" + name + "}" + rest, env) == Some(env[name] + Format(rest, env).value)
  {
    var t := "{" + name + "}" + rest;
    assert t[1..] == name + "}" + rest;
    assert '}' in t[1..] by { assert t[1..][|name|] == '}'; }
    var j := IndexOf(t[1..], '}');
    assert t[1..][|name|] == '}';
    assert '}' !in t[1..][..|name|] by { assert t[1..][..|name|] == name; }
    assert j == |name|;
    assert t[1..1 + j] == name;
    assert t[j + 2..] == rest;
    var ps := ParseFormat(rest).value;
    assert ([Field(name)] + ps)[1..] == ps;
  }

  /** Literal text in front of a template passes through unchanged. */
  lemma {:induction false} FormatLiteralPrefix(lit: string, t: string, env: map<string, string>)
    requires NoBraces(lit) && Format(t, env).Some?
    ensures Format(lit + t, env) == Some(lit + Format(t, env).value)
    decreases |lit|
  {
    var f := Format(t, env).value;
    if lit == [] {
      assert lit + t == t && lit + f == f;
    } else {
      var u := lit + t;
      assert u[1..] == lit[1..] + t;
      FormatLiteralPrefix(lit[1..], t, env);
      assert Format(u[1..], env) == Some(lit[1..] + f);
      assert ParseFormat(u) == PrependPiece(Lit(lit[0]), ParseFormat(u[1..]));
      var ps := ParseFormat(u[1..]).value;
      assert Render(ps, env) == Some(lit[1..] + f);
      assert ([Lit(lit[0])] + ps)[1..] == ps;
      assert Render([Lit(lit[0])] + ps, env) == Some([lit[0]] + (lit[1..] + f));
      assert [lit[0]] + (lit[1..] + f) == lit + f;
    }
  }
}
