/** Properties of the parameter parser: the value rule, where a keyword
    token splits, which mode fires, what each mode produces, and that a
    caller who quotes values the way the usage text describes gets them back
    unchanged. */
module ParamsProperties {
  import opened Results
  import opened Json
  import opened Text
  import opened Params

  // ---------------------------------------------------------------------
  // The value rule

  /** A `:`-prefixed token is the JSON parse of its remainder, failure
      included; any other token, the empty one too, is the string itself. */
  lemma ValueRule(t: string, parse: Parser)
    ensures |t| > 0 && t[0] == ':' ==> ParseParam(t, parse) == parse(t[1..])
    ensures (|t| == 0 || t[0] != ':') ==> ParseParam(t, parse) == Ok(JString(t))
    ensures ':' !in t ==> ParseParam(t, parse) == Ok(JString(t))
  {
  }

  // ---------------------------------------------------------------------
  // Keyword splitting

  /** `key=rest`: the key is everything before the first `=` and the value
      follows the value rule; a parse failure names the key. */
  lemma SplitAtEquals(key: string, rest: string, parse: Parser)
    requires '=' !in key
    requires |key| == 0 || key[|key| - 1] != ':'
    ensures ParseKeywordParam(key + "=" + rest, parse) == Keyed(key, ParseParam(rest, parse))
  {
    SplitKeywordUnique(key + "=" + rest, KeywordSplit(key, rest));
  }

  /** `key:=rest`: the colon leaves the key and the rest is always parsed as
      JSON; a parse failure names the key. */
  lemma SplitAtColonEquals(key: string, rest: string, parse: Parser)
    requires '=' !in key
    ensures ParseKeywordParam(key + ":=" + rest, parse) == Keyed(key, parse(rest))
  {
    assert (":" + rest)[1..] == rest;
    SplitKeywordUnique(key + ":=" + rest, KeywordSplit(key, ":" + rest));
  }

  /** Writing the colon on either side of `=` means the same thing. */
  lemma ColonEitherSide(key: string, rest: string, parse: Parser)
    requires '=' !in key
    requires |key| == 0 || key[|key| - 1] != ':'
    ensures ParseKeywordParam(key + ":=" + rest, parse) == ParseKeywordParam(key + "=:" + rest, parse)
  {
    var s := KeywordSplit(key, ":" + rest);
    assert (":" + rest)[1..] == rest;
    SplitKeywordUnique(key + ":=" + rest, s);
    assert key + "=:" + rest == key + "=" + (":" + rest);
    SplitKeywordUnique(key + "=:" + rest, s);
  }

  /** A token of the keyword pattern always has a pair: its key is the
      alphanumeric name in front of the separator, never empty. */
  lemma KeywordTokenKey(t: string, parse: Parser)
    requires IsKeywordToken(t)
    ensures var r := ParseKeywordParam(t, parse);
            var name := t[..AlnumPrefix(t)];
            && |name| >= 1
            && r != Err(InvalidParam(MissingPair, None))
            && (r.Ok? ==> r.value.key == name)
            && (r.Err? ==> r.error == InvalidParam(AtKey(name), r.error.cause))
  {
    var n := AlnumPrefix(t);
    NameFacts(t[..n]);
    if t[n] == '=' {
      PlainKeyword(t, n, parse);
    } else {
      ColonKeyword(t, n, parse);
    }
  }

  /** A name has no `=` and does not end in `:`. */
  lemma NameFacts(name: string)
    requires forall i :: 0 <= i < |name| ==> IsAsciiAlnum(name[i])
    ensures '=' !in name
    ensures |name| == 0 || name[|name| - 1] != ':'
  {
  }

  /** The `name=rest` case of a keyword-pattern token. */
  lemma PlainKeyword(t: string, n: nat, parse: Parser)
    requires n < |t| && t[n] == '='
    requires '=' !in t[..n] && (n == 0 || t[n - 1] != ':')
    ensures ParseKeywordParam(t, parse) == Keyed(t[..n], ParseParam(t[n + 1..], parse))
  {
    assert t == t[..n] + "=" + t[n + 1..];
    if n > 0 {
      assert t[..n][n - 1] == t[n - 1];
    }
    SplitAtEquals(t[..n], t[n + 1..], parse);
  }

  /** The `name:=rest` case of a keyword-pattern token. */
  lemma ColonKeyword(t: string, n: nat, parse: Parser)
    requires n + 1 < |t| && t[n] == ':' && t[n + 1] == '='
    requires '=' !in t[..n]
    ensures ParseKeywordParam(t, parse) == Keyed(t[..n], parse(t[n + 2..]))
  {
    assert t == t[..n] + ":=" + t[n + 2..];
    SplitAtColonEquals(t[..n], t[n + 2..], parse);
  }

  // ---------------------------------------------------------------------
  // Mode selection

  /** The stdin forms fire exactly for a lone `-` or a lone `_`; a marker
      next to other tokens is an ordinary token. */
  lemma StdinFormOnlyAlone(tokens: seq<string>)
    ensures Classify(tokens) == StdinDocument <==> tokens == ["-"]
    ensures Classify(tokens) == StdinLines <==> tokens == ["_"]
  {
  }

  /** Keyword mode fires exactly when, outside the stdin forms, some token
      has the keyword pattern's shape. */
  lemma KeywordModeWhenAnyMatches(tokens: seq<string>)
    requires tokens != ["-"] && tokens != ["_"]
    ensures Classify(tokens) == Keyword <==> exists i :: 0 <= i < |tokens| && KeywordShape(tokens[i])
  {
    forall i | 0 <= i < |tokens| {
      KeywordTokenMatchesShape(tokens[i]);
    }
  }

  /** No tokens at all: the empty positional array. */
  lemma NoTokensEmptyArray(stdin: string, parse: Parser)
    ensures ParseParams([], stdin, parse) == Ok(JArray([]))
  {
  }

  /** Standard input is consulted only by the two stdin forms. */
  lemma StdinOnlyReadForStdinForms(tokens: seq<string>, s1: string, s2: string, parse: Parser)
    requires tokens != ["-"] && tokens != ["_"]
    ensures ParseParams(tokens, s1, parse) == ParseParams(tokens, s2, parse)
  {
  }

  /** Once keyword mode is chosen, a token without `=` fails the whole parse
      even though positional mode would have accepted it. */
  lemma KeywordModeRejectsBareToken(tokens: seq<string>, j: int, stdin: string, parse: Parser)
    requires Classify(tokens) == Keyword
    requires 0 <= j < |tokens| && '=' !in tokens[j]
    ensures ParseParams(tokens, stdin, parse).Err?
  {
    assert ParseKeywordParam(tokens[j], parse).Err?;
  }

  // ---------------------------------------------------------------------
  // What each mode produces

  /** Keyword mode fails with the error of the first token that fails, and
      the tokens after it are never looked at. */
  lemma KeywordFirstFailure(tokens: seq<string>, parse: Parser, i: int)
    requires 0 <= i < |tokens| && FirstFailure(tokens, parse, i)
    ensures ParseKeywordTokens(tokens, parse) == Err(ParseKeywordParam(tokens[i], parse).error)
  {
    var r := ParseKeywordTokens(tokens, parse);
    var j :| 0 <= j < |tokens| && FirstFailure(tokens, parse, j) && r.error == ParseKeywordParam(tokens[j], parse).error;
    assert j == i;
  }

  /** Positional mode: as many elements as tokens, element `i` is token `i`
      under the value rule, and a failure reports the smallest failing index. */
  lemma PositionalForm(tokens: seq<string>, stdin: string, parse: Parser)
    requires Classify(tokens) == Positional
    ensures var r := ParseParams(tokens, stdin, parse);
            && (r.Ok? ==> r.value.JArray? && |r.value.items| == |tokens|
                          && forall i :: 0 <= i < |tokens| ==> ParseParam(tokens[i], parse) == Ok(r.value.items[i]))
            && (r.Err? ==> r.error.InvalidParam? && r.error.site.AtIndex?
                           && var i := r.error.site.index;
                              && i < |tokens| && ParseParam(tokens[i], parse).Err?
                              && forall j :: 0 <= j < i ==> ParseParam(tokens[j], parse).Ok?)
  {
  }

  /** The pairs of an all-successful keyword parse, in token order. */
  ghost function PairsOf(tokens: seq<string>, parse: Parser): (pairs: seq<Pair>)
    requires forall i :: 0 <= i < |tokens| ==> ParseKeywordParam(tokens[i], parse).Ok?
    ensures |pairs| == |tokens|
  {
    seq(|tokens|, i requires 0 <= i < |tokens| => ParseKeywordParam(tokens[i], parse).value)
  }

  /** Keyword mode: one entry per distinct key; a key repeated later
      overwrites the earlier value. */
  lemma {:induction false} KeywordForm(tokens: seq<string>, stdin: string, parse: Parser)
    requires Classify(tokens) == Keyword
    requires forall i :: 0 <= i < |tokens| ==> ParseKeywordParam(tokens[i], parse).Ok?
    ensures var pairs := PairsOf(tokens, parse);
            && ParseParams(tokens, stdin, parse) == Ok(JObject(Assign(pairs)))
            && (forall k :: k in Assign(pairs) <==> HasKey(pairs, k))
            && (forall i :: 0 <= i < |pairs| && LastWithKey(pairs, i) ==> Assign(pairs)[pairs[i].key] == pairs[i].value)
  {
    var pairs := PairsOf(tokens, parse);
    var r := MapAll(tokens, (t: string) => ParseKeywordParam(t, parse));
    assert r.Ok?;
    assert r.value == pairs;
    AssignKeys(pairs);
    forall i | 0 <= i < |pairs| && LastWithKey(pairs, i)
      ensures Assign(pairs)[pairs[i].key] == pairs[i].value
    {
      AssignLastWins(pairs, i);
    }
  }

  // ---------------------------------------------------------------------
  // Round trips: quoting values the way the usage text describes

  /** How a caller writes value `v` as a positional token: a string that
      would not be mistaken for JSON, a keyword pair or a stdin marker is
      written verbatim, anything else as `:` followed by its JSON text. */
  function EncodePositional(v: Json, stringify: Printer): string
  {
    if v.JString? && Verbatim(v.s) then v.s else ":" + stringify(v)
  }

  /** A string that reads back as itself in positional mode. */
  predicate Verbatim(s: string) {
    (|s| == 0 || s[0] != ':') && !IsKeywordToken(s) && s != "-" && s != "_"
  }

  /** Positional values survive the trip through the command line, provided
      the JSON printer and parser agree on them. */
  lemma {:induction false} PositionalRoundTrip(vs: seq<Json>, stdin: string, parse: Parser, stringify: Printer)
    requires forall i :: 0 <= i < |vs| ==> parse(stringify(vs[i])) == Ok(vs[i])
    ensures var tokens := seq(|vs|, i requires 0 <= i < |vs| => EncodePositional(vs[i], stringify));
            ParseParams(tokens, stdin, parse) == Ok(JArray(vs))
  {
    var tokens := seq(|vs|, i requires 0 <= i < |vs| => EncodePositional(vs[i], stringify));
    forall i | 0 <= i < |tokens|
      ensures !IsKeywordToken(tokens[i]) && tokens[i] != "-" && tokens[i] != "_"
      ensures ParseParam(tokens[i], parse) == Ok(vs[i])
    {
      if !(vs[i].JString? && Verbatim(vs[i].s)) {
        assert tokens[i][0] == ':';
        assert AlnumPrefix(tokens[i]) == 0;
        assert tokens[i][1..] == stringify(vs[i]);
      }
    }
    assert Classify(tokens) == Positional;
    var r := MapAll(tokens, (t: string) => ParseParam(t, parse));
    assert r.Ok?;
    assert r.value == vs;
  }

  /** A keyword name: ASCII letters and digits, at least one. */
  predicate IsName(k: string) {
    |k| >= 1 && forall i :: 0 <= i < |k| ==> IsAsciiAlnum(k[i])
  }

  /** How a caller writes a named JSON value: `name:=<json>`. */
  function EncodeKeyword(p: Pair, stringify: Printer): string
  {
    p.key + ":=" + stringify(p.value)
  }

  /** An encoded pair matches the keyword pattern. */
  lemma EncodedKeywordMatches(p: Pair, stringify: Printer)
    requires IsName(p.key) && IsLineText(stringify(p.value))
    ensures IsKeywordToken(EncodeKeyword(p, stringify))
  {
    var t := EncodeKeyword(p, stringify);
    var n := |p.key|;
    assert t[..n] == p.key;
    AlnumPrefixOf(t, n);
    assert t[n + 2..] == stringify(p.value);
  }

  /** The alphanumeric prefix ends where the first non-alphanumeric is. */
  lemma AlnumPrefixOf(t: string, n: nat)
    requires n < |t| && !IsAsciiAlnum(t[n])
    requires forall i :: 0 <= i < n ==> IsAsciiAlnum(t[i])
    ensures AlnumPrefix(t) == n
  {
  }

  /** Named values survive the trip through the command line: the object
      read back holds each name with the value of its last occurrence. */
  lemma {:induction false} KeywordRoundTrip(pairs: seq<Pair>, stdin: string, parse: Parser, stringify: Printer)
    requires |pairs| >= 1
    requires forall i :: 0 <= i < |pairs| ==> IsName(pairs[i].key)
    requires forall i :: 0 <= i < |pairs| ==> IsLineText(stringify(pairs[i].value))
    requires forall i :: 0 <= i < |pairs| ==> parse(stringify(pairs[i].value)) == Ok(pairs[i].value)
    ensures var tokens := seq(|pairs|, i requires 0 <= i < |pairs| => EncodeKeyword(pairs[i], stringify));
            ParseParams(tokens, stdin, parse) == Ok(JObject(Assign(pairs)))
  {
    var tokens := seq(|pairs|, i requires 0 <= i < |pairs| => EncodeKeyword(pairs[i], stringify));
    assert Classify(tokens) == Keyword by {
      EncodedKeywordMatches(pairs[0], stringify);
      EncodedIsNoMarker(pairs[0], stringify);
      KeywordModeOf(tokens, 0);
    }
    assert ParseKeywordTokens(tokens, parse) == Ok(JObject(Assign(pairs))) by {
      forall i | 0 <= i < |pairs|
        ensures ParseKeywordParam(tokens[i], parse) == Ok(pairs[i])
      {
        EncodedKeywordParses(pairs[i], parse, stringify);
      }
      KeywordTokensAssign(tokens, pairs, parse);
    }
  }

  /** One keyword-pattern token, outside the stdin forms, selects keyword mode. */
  lemma KeywordModeOf(tokens: seq<string>, i: int)
    requires 0 <= i < |tokens| && IsKeywordToken(tokens[i])
    requires tokens != ["-"] && tokens != ["_"]
    ensures Classify(tokens) == Keyword
  {
  }

  /** Tokens that all split into the given pairs build their assignment. */
  lemma KeywordTokensAssign(tokens: seq<string>, pairs: seq<Pair>, parse: Parser)
    requires |tokens| == |pairs|
    requires forall i :: 0 <= i < |tokens| ==> ParseKeywordParam(tokens[i], parse) == Ok(pairs[i])
    ensures ParseKeywordTokens(tokens, parse) == Ok(JObject(Assign(pairs)))
  {
    var r := MapAll(tokens, (t: string) => ParseKeywordParam(t, parse));
    assert r.value == pairs;
  }

  /** An encoded pair splits back into the pair. */
  lemma EncodedKeywordParses(p: Pair, parse: Parser, stringify: Printer)
    requires IsName(p.key)
    requires parse(stringify(p.value)) == Ok(p.value)
    ensures ParseKeywordParam(EncodeKeyword(p, stringify), parse) == Ok(p)
  {
    NameFacts(p.key);
    SplitAtColonEquals(p.key, stringify(p.value), parse);
  }

  /** An encoded pair is neither stdin marker. */
  lemma EncodedIsNoMarker(p: Pair, stringify: Printer)
    requires IsName(p.key)
    ensures EncodeKeyword(p, stringify) != "-" && EncodeKeyword(p, stringify) != "_"
  {
    assert EncodeKeyword(p, stringify)[|p.key|] == ':';
  }

  // ---------------------------------------------------------------------
  // Worked examples from the usage text

  /** `:42` is the number 42, `42` is the string "42". */
  lemma ColonMarksJson(stdin: string, parse: Parser)
    requires parse("42") == Ok(JNumber(42.0))
    ensures ParseParams([":42"], stdin, parse) == Ok(JArray([JNumber(42.0)]))
    ensures ParseParams(["42"], stdin, parse) == Ok(JArray([JString("42")]))
  {
    assert AlnumPrefix(":42") == 0;
    assert Classify([":42"]) == Positional;
    assert ":42"[1..] == "42";
    SingletonPositional(":42", parse);
    assert "42"[1..] == "2" && "2"[1..] == "";
    assert AlnumPrefix("42") == 2;
    assert Classify(["42"]) == Positional;
    SingletonPositional("42", parse);
  }

  /** A single positional token is a one-element array. */
  lemma SingletonPositional(t: string, parse: Parser)
    requires ParseParam(t, parse).Ok?
    ensures ParsePositionalTokens([t], parse) == Ok(JArray([ParseParam(t, parse).value]))
  {
    var r := ParsePositionalTokens([t], parse);
    assert r.Ok?;
    assert r.value.items == [ParseParam(t, parse).value];
  }

  /** `-` with `["a","b"]` on stdin passes that array as the parameters. */
  lemma StdinDocumentExample(parse: Parser)
    requires parse("[\"a\",\"b\"]") == Ok(JArray([JString("a"), JString("b")]))
    ensures ParseParams(["-"], "[\"a\",\"b\"]", parse) == Ok(JArray([JString("a"), JString("b")]))
  {
  }

  /** A value piped whole for the `-` form is read back unchanged, provided
      the JSON printer and parser agree on it. */
  lemma StdinDocumentRoundTrip(v: Json, parse: Parser, stringify: Printer)
    requires parse(stringify(v)) == Ok(v)
    ensures ParseParams(["-"], stringify(v), parse) == Ok(v)
  {
  }

  /** `_` with `1\n2\n` on stdin: one element per non-blank line. */
  lemma StdinLinesExample(parse: Parser)
    requires parse("1") == Ok(JNumber(1.0)) && parse("2") == Ok(JNumber(2.0))
    ensures ParseParams(["_"], "1\n2\n", parse) == Ok(JArray([JNumber(1.0), JNumber(2.0)]))
  {
    StdinLinesDispatch("1\n2\n", parse);
    OneTwoLines();
    assert ParseLines(["1", "2"], parse) == Ok(JArray([JNumber(1.0), JNumber(2.0)])) by {
      var r := ParseLines(["1", "2"], parse);
      assert r.Ok?;
      assert r.value.items == [JNumber(1.0), JNumber(2.0)];
    }
  }

  /** The text `1\n2\n` has the lines `1` and `2`; the empty piece after the
      last newline is dropped. */
  lemma OneTwoLines()
    ensures NonBlankLines("1\n2\n") == ["1", "2"]
  {
    var lines := ["1", "2"];
    assert lines + [""] == ["1", "2", ""];
    assert Join(["1", "2", ""], '\n') == "1\n2\n" by {
      assert ["1", "2", ""][1..] == ["2", ""];
      assert ["2", ""][1..] == [""];
    }
    assert forall k :: 0 <= k < |lines| ==> CleanLine(lines[k]) by {
      assert CleanLine("1") && CleanLine("2");
    }
    CleanLinesReadBack(lines);
  }

  /** A lone `_` hands the non-blank lines of stdin to the line parser. */
  lemma StdinLinesDispatch(text: string, parse: Parser)
    ensures ParseParams(["_"], text, parse) == ParseLines(NonBlankLines(text), parse)
  {
    assert Classify(["_"]) == StdinLines;
  }

  /** A line another program can emit for the `_` form: non-empty, no
      newline inside, no white space at either end. */
  predicate CleanLine(l: string) {
    |l| > 0 && '\n' !in l && NoEdges(l, IsJsWhitespace)
  }

  /** Clean lines, each followed by a newline, are read back as exactly
      those lines in order (the final empty piece is dropped). */
  lemma CleanLinesReadBack(lines: seq<string>)
    requires forall k :: 0 <= k < |lines| ==> CleanLine(lines[k])
    ensures NonBlankLines(Join(lines + [""], '\n')) == lines
  {
    CleanPartsSplit(lines);
    CleanPartsTrimmed(lines);
    DropTrailingEmpty(lines);
  }

  /** The empty piece after the last newline is filtered out. */
  lemma DropTrailingEmpty(lines: seq<string>)
    requires forall k :: 0 <= k < |lines| ==> |lines[k]| > 0
    ensures DropEmpty(lines + [""]) == lines
  {
    DropEmptyConcat(lines, [""]);
    DropEmptyKeepsAll(lines);
    assert DropEmpty([""]) == [];
  }

  /** The pieces of the joined text are the lines and one empty piece. */
  lemma CleanPartsSplit(lines: seq<string>)
    requires forall k :: 0 <= k < |lines| ==> CleanLine(lines[k])
    ensures Split(Join(lines + [""], '\n'), '\n') == lines + [""]
  {
    var parts := lines + [""];
    forall k | 0 <= k < |parts|
      ensures '\n' !in parts[k]
    {
      if k < |lines| {
        assert parts[k] == lines[k];
      }
    }
    SplitJoin(parts, '\n');
  }

  /** Trimming leaves clean lines and the empty piece as they are. */
  lemma CleanPartsTrimmed(lines: seq<string>)
    requires forall k :: 0 <= k < |lines| ==> CleanLine(lines[k])
    ensures TrimAll(lines + [""]) == lines + [""]
  {
    var parts := lines + [""];
    forall k | 0 <= k < |parts|
      ensures NoEdges(parts[k], IsJsWhitespace)
    {
      if k < |lines| {
        assert parts[k] == lines[k];
      }
    }
    TrimAllKeeps(parts);
  }

  /** `a=1 b` is read in keyword mode, where `b` has no `=`. */
  lemma MixedTokensExample(stdin: string, parse: Parser)
    ensures ParseParams(["a=1", "b"], stdin, parse) == Err(InvalidParam(MissingPair, None))
  {
    var tokens := ["a=1", "b"];
    assert IsKeywordToken(tokens[0]);
    KeywordModeOf(tokens, 0);
    assert ParseKeywordParam(tokens[0], parse).Ok? by {
      assert "a" + "=" + "1" == tokens[0];
      SplitAtEquals("a", "1", parse);
    }
    assert '=' !in tokens[1];
    KeywordFirstFailure(tokens, parse, 1);
  }
}
