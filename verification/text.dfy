/** The JavaScript string primitives the argument parser relies on:
    `indexOf` of one character, `split` on a one-character separator, `trim`,
    and the character classes of the keyword pattern. Strings are sequences of
    Unicode scalar values; the characters examined here (`:`, `=`, line
    terminators, white space) are all single UTF-16 code units, so indices
    agree with the JavaScript ones wherever the program compares them. */
module Text {
  import opened Results

  /** `[0-9a-z]` under the `i` flag (without the `u` flag no non-ASCII
      character folds onto an ASCII letter). */
  predicate IsAsciiAlnum(c: char) {
    ('0' <= c <= '9') || ('a' <= c <= 'z') || ('A' <= c <= 'Z')
  }

  /** The characters a regular-expression `.` refuses to match. */
  predicate IsLineTerminator(c: char) {
    c == '\n' || c == '\r' || c == '\U{2028}' || c == '\U{2029}'
  }

  /** The characters `String.prototype.trim` strips: the ECMAScript WhiteSpace
      set (tab, vertical tab, form feed, space, no-break space, the byte-order
      mark and the other space separators) plus the line terminators. */
  predicate IsJsWhitespace(c: char) {
    || c == '\t' || c == '\U{B}' || c == '\U{C}' || c == ' ' || c == '\U{A0}' || c == '\U{FEFF}'
    || c == '\U{1680}' || ('\U{2000}' <= c <= '\U{200A}') || c == '\U{202F}' || c == '\U{205F}'
    || c == '\U{3000}' || IsLineTerminator(c)
  }

  /** `s.indexOf(c)`, with `None` for JavaScript's `-1`. */
  function IndexOf(s: string, c: char): (r: Option<nat>)
    ensures r.None? <==> c !in s
    ensures r.Some? ==> r.value < |s| && s[r.value] == c && c !in s[..r.value]
  {
    if |s| == 0 then None
    else if s[0] == c then Some(0)
    else
      match IndexOf(s[1..], c)
      case None => None
      case Some(i) =>
        assert s[..i + 1] == [s[0]] + s[1..][..i];
        Some(i + 1)
  }

  /** Joins pieces with a one-character separator (`Array.prototype.join`). */
  function Join(parts: seq<string>, sep: char): string
  {
    if |parts| == 0 then ""
    else if |parts| == 1 then parts[0]
    else parts[0] + [sep] + Join(parts[1..], sep)
  }

  /** `s.split(sep)` for a one-character separator: the pieces between
      separators, at least one, none containing the separator, and joining
      them back gives `s`. */
  function Split(s: string, sep: char): (parts: seq<string>)
    ensures |parts| >= 1
    ensures forall i :: 0 <= i < |parts| ==> sep !in parts[i]
    ensures Join(parts, sep) == s
    decreases |s|
  {
    match IndexOf(s, sep)
    case None => [s]
    case Some(i) =>
      var rest := Split(s[i + 1..], sep);
      assert s == s[..i] + [sep] + s[i + 1..];
      [s[..i]] + rest
  }

  /** Splitting undoes joining whenever no piece holds the separator. */
  lemma {:induction false} SplitJoin(parts: seq<string>, sep: char)
    requires |parts| >= 1
    requires forall i :: 0 <= i < |parts| ==> sep !in parts[i]
    ensures Split(Join(parts, sep), sep) == parts
    decreases |parts|
  {
    if |parts| > 1 {
      var tail := Join(parts[1..], sep);
      var s := parts[0] + [sep] + tail;
      assert sep !in parts[0];
      assert s[|parts[0]|] == sep;
      assert forall j :: 0 <= j < |parts[0]| ==> s[j] == parts[0][j];
      assert IndexOf(s, sep) == Some(|parts[0]|);
      assert s[..|parts[0]|] == parts[0];
      assert s[|parts[0]| + 1..] == tail;
      SplitJoin(parts[1..], sep);
      assert Split(s, sep) == [parts[0]] + parts[1..];
    }
  }

  // The trimming functions take the character class as a parameter, so
  // that their proofs never unfold the long white space disjunction; the
  // program's `trim()` is `Trim` with `IsJsWhitespace`.

  /** `trimStart`: drops the leading characters of class `ws` only. */
  function TrimStart(s: string, ws: char -> bool): (r: string)
    ensures |r| <= |s| && r == s[|s| - |r|..]
    ensures forall i :: 0 <= i < |s| - |r| ==> ws(s[i])
    ensures |r| == 0 || !ws(r[0])
  {
    if |s| > 0 && ws(s[0]) then TrimStart(s[1..], ws) else s
  }

  /** `trimEnd`: drops the trailing characters of class `ws` only. */
  function TrimEnd(s: string, ws: char -> bool): (r: string)
    ensures |r| <= |s| && r == s[..|r|]
    ensures forall i :: |r| <= i < |s| ==> ws(s[i])
    ensures |r| == 0 || !ws(r[|r| - 1])
  {
    if |s| > 0 && ws(s[|s| - 1]) then TrimEnd(s[..|s| - 1], ws) else s
  }

  /** `s.trim()` for the character class `ws`: trailing, then leading
      characters of the class removed. */
  function Trim(s: string, ws: char -> bool): string
  {
    TrimStart(TrimEnd(s, ws), ws)
  }

  /** `String.prototype.trim`. */
  function JsTrim(s: string): string
  {
    Trim(s, IsJsWhitespace)
  }

  /** What trimming returns: the middle of `s` between offset
      `|TrimEnd(s, ws)| - |r|` and `|TrimEnd(s, ws)|`, with only characters
      of the class before and after it, and neither starting nor ending with
      one. */
  lemma TrimSpec(s: string, ws: char -> bool)
    ensures var e := TrimEnd(s, ws); var r := Trim(s, ws);
            && r == s[|e| - |r|..|e|]
            && (forall i :: 0 <= i < |e| - |r| ==> ws(s[i]))
            && (forall i :: |e| <= i < |s| ==> ws(s[i]))
            && NoEdges(r, ws)
  {
    TrimSlice(s, ws);
    TrimLeading(s, ws);
    TrimEdges(s, ws);
  }

  lemma TrimSlice(s: string, ws: char -> bool)
    ensures var e := TrimEnd(s, ws); var r := Trim(s, ws); r == s[|e| - |r|..|e|]
  {
    var e := TrimEnd(s, ws);
    var r := TrimStart(e, ws);
    assert r == e[|e| - |r|..];
    assert e == s[..|e|];
  }

  lemma TrimLeading(s: string, ws: char -> bool)
    ensures var e := TrimEnd(s, ws); var r := Trim(s, ws);
            forall i :: 0 <= i < |e| - |r| ==> ws(s[i])
  {
    var e := TrimEnd(s, ws);
    var r := TrimStart(e, ws);
    forall i | 0 <= i < |e| - |r|
      ensures ws(s[i])
    {
      assert s[i] == e[i];
    }
  }

  lemma TrimEdges(s: string, ws: char -> bool)
    ensures NoEdges(Trim(s, ws), ws)
  {
    var e := TrimEnd(s, ws);
    var r := TrimStart(e, ws);
    if |r| > 0 {
      assert r[|r| - 1] == e[|e| - 1];
    }
  }

  /** Trimming twice is trimming once. */
  lemma TrimIdempotent(s: string, ws: char -> bool)
    ensures Trim(Trim(s, ws), ws) == Trim(s, ws)
  {
    TrimSpec(s, ws);
    TrimNoEdges(Trim(s, ws), ws);
  }

  /** Neither the first nor the last character of `s` is of class `ws`. */
  predicate NoEdges(s: string, ws: char -> bool) {
    |s| == 0 || (!ws(s[0]) && !ws(s[|s| - 1]))
  }

  /** A string that neither starts nor ends with a character of the class is
      its own trim. */
  lemma TrimNoEdges(s: string, ws: char -> bool)
    requires NoEdges(s, ws)
    ensures Trim(s, ws) == s
  {
  }
}
