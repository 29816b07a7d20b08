/** The parameter parser of the command-line client: how the tokens after the
    method name (or, for the two stdin forms, the text piped to the program)
    become the JSON-RPC `params` value. JSON parsing is the `parse`
    collaborator; reading standard input is replaced by its text `stdin`. */
module Params {
  import opened Results
  import opened Json
  import opened Text

  /** Where an `InvalidParam` error arose; the error message names the key,
      the positional index, or stdin. */
  datatype Site =
    | MissingPair          // "Missing key=value pair"
    | AtKey(key: string)   // "Unable to parse '<key>'"
    | AtIndex(index: nat)  // "Unable to parse param at index <i>"
    | Stdin                // "Unable to parse stdin"

  /** The error kinds the client raises itself, each with an optional cause. */
  datatype CliError =
    | InvalidParam(site: Site, cause: Option<Cause>)
    | SigningError(cause: Option<Cause>)

  /** One `key=value` token after splitting and value parsing. */
  datatype Pair = Pair(key: string, value: Json)

  /** How the token list is interpreted, decided before anything is parsed. */
  datatype Mode = StdinDocument | StdinLines | Keyword | Positional

  // ---------------------------------------------------------------------
  // The keyword pattern  /^[0-9a-z]+:?=.+$/i

  /** Length of the longest prefix of ASCII letters and digits. */
  function AlnumPrefix(t: string): (n: nat)
    ensures n <= |t|
    ensures forall i :: 0 <= i < n ==> IsAsciiAlnum(t[i])
    ensures n == |t| || !IsAsciiAlnum(t[n])
  {
    if |t| > 0 && IsAsciiAlnum(t[0]) then 1 + AlnumPrefix(t[1..]) else 0
  }

  /** A non-empty run of characters a regular-expression `.` matches. */
  predicate IsLineText(s: string) {
    |s| >= 1 && forall i :: 0 <= i < |s| ==> !IsLineTerminator(s[i])
  }

  /** The separator the pattern allows: `=` or `:=`. */
  function Separator(colon: bool): string {
    if colon then ":=" else "="
  }

  /** The pattern as an executable test. The name `[0-9a-z]+` is greedy and
      the next character must be `:` or `=`, so the only split to try is at the
      end of the longest alphanumeric prefix. */
  predicate IsKeywordToken(t: string) {
    var n := AlnumPrefix(t);
    && n >= 1
    && ((n < |t| && t[n] == '=' && IsLineText(t[n + 1..]))
        || (n + 1 < |t| && t[n] == ':' && t[n + 1] == '=' && IsLineText(t[n + 2..])))
  }

  /** `t` reads as a name of `n` ASCII letters and digits, the separator, and
      a non-empty single-line rest. */
  ghost predicate MatchesAt(t: string, n: int, colon: bool) {
    var sep := Separator(colon);
    && 1 <= n
    && n + |sep| < |t|
    && (forall i :: 0 <= i < n ==> IsAsciiAlnum(t[i]))
    && t[n..n + |sep|] == sep
    && IsLineText(t[n + |sep|..])
  }

  /** The pattern as a declarative definition: some split matches. */
  ghost predicate KeywordShape(t: string) {
    exists n: int, colon: bool :: MatchesAt(t, n, colon)
  }

  /** The executable test accepts exactly the tokens of the pattern's shape. */
  lemma KeywordTokenMatchesShape(t: string)
    ensures IsKeywordToken(t) <==> KeywordShape(t)
  {
    if IsKeywordToken(t) {
      var m := AlnumPrefix(t);
      if t[m] == '=' {
        PlainShape(t, m);
      } else {
        ColonShape(t, m);
      }
    }
    if KeywordShape(t) {
      var n: int, colon: bool :| MatchesAt(t, n, colon);
      ShapeIsKeywordToken(t, n, colon);
    }
  }

  /** `name=rest` has the shape without the colon. */
  lemma PlainShape(t: string, n: int)
    requires 1 <= n < |t| && t[n] == '=' && IsLineText(t[n + 1..])
    requires forall i :: 0 <= i < n ==> IsAsciiAlnum(t[i])
    ensures MatchesAt(t, n, false)
  {
    assert t[n..n + 1] == "=";
  }

  /** `name:=rest` has the shape with the colon. */
  lemma ColonShape(t: string, n: int)
    requires 1 <= n && n + 1 < |t| && t[n] == ':' && t[n + 1] == '=' && IsLineText(t[n + 2..])
    requires forall i :: 0 <= i < n ==> IsAsciiAlnum(t[i])
    ensures MatchesAt(t, n, true)
  {
    assert t[n..n + 2] == ":=";
  }

  /** Any split of the shape is the one the test tries. */
  lemma ShapeIsKeywordToken(t: string, n: int, colon: bool)
    requires MatchesAt(t, n, colon)
    ensures IsKeywordToken(t)
  {
    var sep := Separator(colon);
    assert t[n] == sep[0];
    assert AlnumPrefix(t) == n;
    if colon {
      assert t[n + 1] == sep[1];
    }
  }

  // ---------------------------------------------------------------------
  // Tokens to values

  /** The value rule shared by both token modes: a leading `:` marks JSON
      text, anything else is taken verbatim as a string. */
  function ParseParam(t: string, parse: Parser): Result<Json, Cause>
  {
    if |t| > 0 && t[0] == ':' then parse(t[1..]) else Ok(JString(t))
  }

  /** A keyword token cut at its first `=`: the key before it, and the raw
      value after it, with a `:` right before the `=` moved onto the value. */
  datatype KeywordSplit = KeywordSplit(key: string, rawValue: string)

  /** `t` is `key=raw` with a key not ending in `:`, or `key:=rest` with the
      raw value `:rest`; either way the key holds no `=`. */
  ghost predicate SplitsAs(t: string, s: KeywordSplit) {
    && '=' !in s.key
    && ((t == s.key + "=" + s.rawValue && (|s.key| == 0 || s.key[|s.key| - 1] != ':'))
        || (|s.rawValue| > 0 && s.rawValue[0] == ':' && t == s.key + ":=" + s.rawValue[1..]))
  }

  /** The split `parseKeywordParam` performs: none without an `=`. */
  function SplitKeyword(t: string): (r: Option<KeywordSplit>)
    ensures r.None? <==> '=' !in t
  {
    match IndexOf(t, '=')
    case None => None
    case Some(i) =>
      var colon := i > 0 && t[i - 1] == ':';
      var keyEnd := if colon then i - 1 else i;
      var raw := if colon then [':'] + t[i + 1..] else t[i + 1..];
      Some(KeywordSplit(t[..keyEnd], raw))
  }

  /** What `SplitKeyword` finds is a reading of `t` as `SplitsAs` describes. */
  lemma SplitKeywordSound(t: string)
    requires '=' in t
    ensures SplitsAs(t, SplitKeyword(t).value)
  {
    var i := IndexOf(t, '=').value;
    if i > 0 && t[i - 1] == ':' {
      assert SplitKeyword(t).value == KeywordSplit(t[..i - 1], [':'] + t[i + 1..]);
      ColonReading(t, i);
    } else {
      assert SplitKeyword(t).value == KeywordSplit(t[..i], t[i + 1..]);
      PlainReading(t, i);
    }
  }

  /** A first `=` with a `:` before it: the colon moves onto the value. */
  lemma ColonReading(t: string, i: int)
    requires 1 <= i < |t| && t[i - 1] == ':' && t[i] == '=' && '=' !in t[..i]
    ensures SplitsAs(t, KeywordSplit(t[..i - 1], [':'] + t[i + 1..]))
  {
    var key := t[..i - 1];
    var raw := [':'] + t[i + 1..];
    assert '=' !in key by {
      PrefixLacks(t[..i], i - 1, '=');
      assert key == t[..i][..i - 1];
    }
    assert t == key + ":=" + raw[1..] by {
      CutAround(t, i - 1, i + 1);
      assert t[i - 1..i + 1] == ":=";
      DropHead(':', t[i + 1..]);
    }
  }

  /** A first `=` without a `:` before it: the key is everything before it. */
  lemma PlainReading(t: string, i: int)
    requires 0 <= i < |t| && t[i] == '=' && !(i > 0 && t[i - 1] == ':') && '=' !in t[..i]
    ensures SplitsAs(t, KeywordSplit(t[..i], t[i + 1..]))
  {
    var key := t[..i];
    assert t == key + "=" + t[i + 1..] by {
      CutAround(t, i, i + 1);
      assert t[i..i + 1] == "=";
    }
    assert |key| == 0 || key[|key| - 1] != ':';
  }

  /** `t` is its prefix, its middle and its suffix put back together. */
  lemma CutAround(t: string, i: int, j: int)
    requires 0 <= i <= j <= |t|
    ensures t == t[..i] + t[i..j] + t[j..]
  {
  }

  /** Dropping the first character of `[c] + x` gives `x`. */
  lemma DropHead(c: char, x: string)
    ensures ([c] + x)[1..] == x
  {
  }

  /** A prefix of a string without `c` has no `c` either. */
  lemma PrefixLacks(s: string, n: int, c: char)
    requires 0 <= n <= |s| && c !in s
    ensures c !in s[..n]
  {
    forall k | 0 <= k < n
      ensures s[..n][k] != c
    {
      assert s[..n][k] == s[k];
    }
  }

  /** The split is determined by its characterisation: any way of reading
      `t` as `SplitsAs` describes is the one `SplitKeyword` finds. */
  lemma SplitKeywordUnique(t: string, s: KeywordSplit)
    requires SplitsAs(t, s)
    ensures SplitKeyword(t) == Some(s)
  {
    if t == s.key + "=" + s.rawValue && (|s.key| == 0 || s.key[|s.key| - 1] != ':') {
      SplitPlain(s.key, s.rawValue);
    } else {
      assert s.rawValue == [':'] + s.rawValue[1..];
      SplitColon(s.key, s.rawValue[1..]);
    }
  }

  /** `key=raw`, the key not ending in `:`, splits into that key and value. */
  lemma SplitPlain(key: string, raw: string)
    requires '=' !in key && (|key| == 0 || key[|key| - 1] != ':')
    ensures SplitKeyword(key + "=" + raw) == Some(KeywordSplit(key, raw))
  {
    PlainIndex(key, raw);
    PlainParts(key, raw);
  }

  lemma PlainIndex(key: string, raw: string)
    requires '=' !in key
    ensures IndexOf(key + "=" + raw, '=') == Some(|key|)
  {
    assert key + "=" + raw == key + ("=" + raw);
    FirstEquals(key, "=" + raw);
  }

  lemma PlainParts(key: string, raw: string)
    requires |key| == 0 || key[|key| - 1] != ':'
    ensures var t := key + "=" + raw;
            && !(|key| > 0 && t[|key| - 1] == ':')
            && t[..|key|] == key && t[|key| + 1..] == raw
  {
    var t := key + "=" + raw;
    if |key| > 0 {
      assert t[|key| - 1] == key[|key| - 1];
    }
    assert |key + "="| == |key| + 1;
  }

  /** `key:=rest` splits into that key and the value `:rest`. */
  lemma SplitColon(key: string, rest: string)
    requires '=' !in key
    ensures SplitKeyword(key + ":=" + rest) == Some(KeywordSplit(key, [':'] + rest))
  {
    ColonIndex(key, rest);
    ColonParts(key, rest);
  }

  lemma ColonIndex(key: string, rest: string)
    requires '=' !in key
    ensures IndexOf(key + ":=" + rest, '=') == Some(|key| + 1)
  {
    assert key + ":=" + rest == (key + ":") + ("=" + rest);
    assert '=' !in key + ":";
    FirstEquals(key + ":", "=" + rest);
  }

  lemma ColonParts(key: string, rest: string)
    ensures var t := key + ":=" + rest;
            && t[|key|] == ':' && t[..|key|] == key && t[|key| + 2..] == rest
  {
    assert |key + ":="| == |key| + 2;
  }

  /** The first `=` of `a + b` is the first `=` of `b` when `a` has none. */
  lemma FirstEquals(a: string, b: string)
    requires '=' !in a && |b| > 0 && b[0] == '='
    ensures IndexOf(a + b, '=') == Some(|a|)
  {
    var s := a + b;
    assert s[|a|] == '=';
    assert s[..|a|] == a;
  }

  /** Splits a keyword token and parses its raw value by the value rule; a
      token without `=` has no pair, and a failing value parse names the key
      and carries the parser's error. */
  function ParseKeywordParam(t: string, parse: Parser): (r: Result<Pair, CliError>)
    ensures '=' !in t <==> r == Err(InvalidParam(MissingPair, None))
    ensures r.Err? ==> r.error.InvalidParam? && (r.error.site.MissingPair? || r.error.site.AtKey?)
    ensures r.Err? && r.error.InvalidParam? && r.error.site.AtKey? ==> r.error.cause.Some?
  {
    match SplitKeyword(t)
    case None => Err(InvalidParam(MissingPair, None))
    case Some(s) => Keyed(s.key, ParseParam(s.rawValue, parse))
  }

  /** Attaches the key to a parsed value, or names the key in the error. */
  function Keyed(key: string, value: Result<Json, Cause>): Result<Pair, CliError>
  {
    match value
    case Ok(v) => Ok(Pair(key, v))
    case Err(e) => Err(InvalidParam(AtKey(key), Some(e)))
  }

  /** Last write wins: the object built by assigning the pairs in order. */
  function Assign(pairs: seq<Pair>): map<string, Json>
  {
    if |pairs| == 0 then map[]
    else Assign(pairs[..|pairs| - 1])[pairs[|pairs| - 1].key := pairs[|pairs| - 1].value]
  }

  /** The object has exactly one entry per distinct key of the pairs. */
  lemma {:induction false} AssignKeys(pairs: seq<Pair>)
    ensures forall k :: k in Assign(pairs) <==> HasKey(pairs, k)
  {
    if |pairs| > 0 {
      var init := pairs[..|pairs| - 1];
      AssignKeys(init);
      forall k
        ensures HasKey(pairs, k) <==> HasKey(init, k) || k == pairs[|pairs| - 1].key
      {
        if HasKey(pairs, k) {
          var i :| 0 <= i < |pairs| && pairs[i].key == k;
          if i < |init| {
            assert init[i] == pairs[i];
          }
        }
        if HasKey(init, k) {
          var i :| 0 <= i < |init| && init[i].key == k;
          assert pairs[i] == init[i];
        }
      }
    }
  }

  /** Each key maps to the value of its last occurrence (last write wins). */
  lemma {:induction false} AssignLastWins(pairs: seq<Pair>, i: int)
    requires 0 <= i < |pairs| && LastWithKey(pairs, i)
    ensures pairs[i].key in Assign(pairs) && Assign(pairs)[pairs[i].key] == pairs[i].value
  {
    var init := pairs[..|pairs| - 1];
    if i < |init| {
      assert init[i] == pairs[i];
      assert LastWithKey(init, i) by {
        forall j | i < j < |init|
          ensures init[j].key != init[i].key
        {
          assert init[j] == pairs[j];
        }
      }
      AssignLastWins(init, i);
    }
  }

  /** Some pair has key `k`. */
  ghost predicate HasKey(pairs: seq<Pair>, k: string) {
    exists i :: 0 <= i < |pairs| && pairs[i].key == k
  }

  /** No later pair has the same key as pair `i`. */
  ghost predicate LastWithKey(pairs: seq<Pair>, i: int)
    requires 0 <= i < |pairs|
  {
    forall j :: i < j < |pairs| ==> pairs[j].key != pairs[i].key
  }

  // ---------------------------------------------------------------------
  // Mode dispatch and the four forms

  /** A lone `-` or `_` selects a stdin form; otherwise one keyword-shaped
      token puts every token on the keyword path; otherwise positional. */
  function Classify(tokens: seq<string>): Mode
  {
    if |tokens| == 1 && tokens[0] == "-" then StdinDocument
    else if |tokens| == 1 && tokens[0] == "_" then StdinLines
    else if exists i :: 0 <= i < |tokens| && IsKeywordToken(tokens[i]) then Keyword
    else Positional
  }

  /** The lines of the stdin text, trimmed, blank ones dropped, in order. */
  function NonBlankLines(text: string): seq<string>
  {
    DropEmpty(TrimAll(Split(text, '\n')))
  }

  /** `lines.map(line => line.trim())`. */
  function TrimAll(lines: seq<string>): seq<string>
  {
    seq(|lines|, i requires 0 <= i < |lines| => JsTrim(lines[i]))
  }

  /** `lines.filter(line => line.length)`: the non-empty lines, in order. */
  function DropEmpty(lines: seq<string>): (r: seq<string>)
    ensures |r| <= |lines|
    ensures forall k :: 0 <= k < |r| ==> |r[k]| > 0 && r[k] in lines
  {
    if |lines| == 0 then []
    else if |lines[0]| == 0 then DropEmpty(lines[1..])
    else [lines[0]] + DropEmpty(lines[1..])
  }

  /** Trimming leaves lines without white space at either end as they are. */
  lemma TrimAllKeeps(lines: seq<string>)
    requires forall k :: 0 <= k < |lines| ==> NoEdges(lines[k], IsJsWhitespace)
    ensures TrimAll(lines) == lines
  {
    forall k | 0 <= k < |lines|
      ensures JsTrim(lines[k]) == lines[k]
    {
      TrimNoEdges(lines[k], IsJsWhitespace);
    }
  }

  /** Filtering distributes over concatenation: it keeps order. */
  lemma {:induction false} DropEmptyConcat(a: seq<string>, b: seq<string>)
    ensures DropEmpty(a + b) == DropEmpty(a) + DropEmpty(b)
    decreases |a|
  {
    if |a| > 0 {
      assert (a + b)[0] == a[0];
      assert (a + b)[1..] == a[1..] + b;
      DropEmptyConcat(a[1..], b);
    } else {
      assert a + b == b;
    }
  }

  /** A list without empty lines passes the filter unchanged. */
  lemma {:induction false} DropEmptyKeepsAll(lines: seq<string>)
    requires forall k :: 0 <= k < |lines| ==> |lines[k]| > 0
    ensures DropEmpty(lines) == lines
    decreases |lines|
  {
    if |lines| > 0 {
      DropEmptyKeepsAll(lines[1..]);
    }
  }

  /** The `-` form: the whole text is one JSON document. */
  function ParseStdinDocument(text: string, parse: Parser): (r: Result<Json, CliError>)
    ensures r.Ok? <==> parse(text).Ok?
    ensures r.Ok? ==> r.value == parse(text).value
    ensures r.Err? ==> r.error == InvalidParam(Stdin, Some(parse(text).error))
  {
    match parse(text)
    case Ok(v) => Ok(v)
    case Err(e) => Err(InvalidParam(Stdin, Some(e)))
  }

  /** The `_` form once the text is cut into non-blank lines: one array
      element per line, and the first line that fails to parse fails the whole
      input. */
  function ParseLines(lines: seq<string>, parse: Parser): (r: Result<Json, CliError>)
    ensures r.Ok? <==> forall k :: 0 <= k < |lines| ==> parse(lines[k]).Ok?
    ensures r.Ok? ==> r.value.JArray? && |r.value.items| == |lines|
                      && forall k :: 0 <= k < |lines| ==> parse(lines[k]) == Ok(r.value.items[k])
    ensures r.Err? ==> r.error.InvalidParam? && r.error.site == Stdin && r.error.cause.Some?
                       && exists k :: 0 <= k < |lines| && parse(lines[k]) == Err(r.error.cause.value)
                                      && forall j :: 0 <= j < k ==> parse(lines[j]).Ok?
  {
    match MapAll(lines, parse)
    case Ok(vs) => Ok(JArray(vs))
    case Err(f) =>
      assert parse(lines[f.index]) == Err(f.error);
      Err(InvalidParam(Stdin, Some(f.error)))
  }

  /** Keyword form: every token is split and parsed in order (the first
      failure is raised), then the pairs are assigned into one object. */
  function ParseKeywordTokens(tokens: seq<string>, parse: Parser): (r: Result<Json, CliError>)
    ensures r.Ok? <==> forall i :: 0 <= i < |tokens| ==> ParseKeywordParam(tokens[i], parse).Ok?
    ensures r.Ok? ==> r.value.JObject?
    ensures r.Err? ==> exists i :: 0 <= i < |tokens| && FirstFailure(tokens, parse, i) && r.error == ParseKeywordParam(tokens[i], parse).error
  {
    match MapAll(tokens, (t: string) => ParseKeywordParam(t, parse))
    case Ok(pairs) => Ok(JObject(Assign(pairs)))
    case Err(f) => Err(f.error)
  }

  /** Token `i` is the first whose keyword split or value parse fails. */
  ghost predicate FirstFailure(tokens: seq<string>, parse: Parser, i: int)
    requires 0 <= i < |tokens|
  {
    && ParseKeywordParam(tokens[i], parse).Err?
    && forall j :: 0 <= j < i ==> ParseKeywordParam(tokens[j], parse).Ok?
  }

  /** Positional form: one array element per token, in order; the first
      token whose value fails to parse is reported by its index. */
  function ParsePositionalTokens(tokens: seq<string>, parse: Parser): (r: Result<Json, CliError>)
    ensures r.Ok? <==> forall i :: 0 <= i < |tokens| ==> ParseParam(tokens[i], parse).Ok?
    ensures r.Ok? ==> r.value.JArray? && |r.value.items| == |tokens|
                      && forall i :: 0 <= i < |tokens| ==> ParseParam(tokens[i], parse) == Ok(r.value.items[i])
    ensures r.Err? ==> r.error.InvalidParam? && r.error.site.AtIndex? && r.error.cause.Some?
                       && var i := r.error.site.index;
                          && i < |tokens|
                          && ParseParam(tokens[i], parse) == Err(r.error.cause.value)
                          && forall j :: 0 <= j < i ==> ParseParam(tokens[j], parse).Ok?
  {
    match MapAll(tokens, (t: string) => ParseParam(t, parse))
    case Ok(vs) => Ok(JArray(vs))
    case Err(f) => Err(InvalidParam(AtIndex(f.index), Some(f.error)))
  }

  /** The whole parameter parser: the tokens after the method name, and the
      text standard input would deliver, to the `params` value. */
  function ParseParams(tokens: seq<string>, stdin: string, parse: Parser): Result<Json, CliError>
  {
    match Classify(tokens)
    case StdinDocument => ParseStdinDocument(stdin, parse)
    case StdinLines => ParseLines(NonBlankLines(stdin), parse)
    case Keyword => ParseKeywordTokens(tokens, parse)
    case Positional => ParsePositionalTokens(tokens, parse)
  }
}
