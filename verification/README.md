# rpcit in Dafny

A model of the core of `rpcit`, a command-line JSON-RPC 2.0 client. The client:

- turns the arguments after the method name, or text piped on standard input, into a `params` value;
- builds a request envelope with a sequence-numbered id;
- optionally signs the request with account credentials from the environment;
- sends it, then decides what to print and which exit code to return.

Modules, one file each:

| file | module | models |
|---|---|---|
| `results.dfy` | `Results` | `Option`, `Result`, and `MapAll`. `MapAll` is "map in order, stop at the first throw", as a throwing callback in `Array.prototype.map` does. |
| `json.dfy` | `Json` | Parsed JSON values, JavaScript truthiness, loose `!= null`, and property access on a response object. |
| `text.dfy` | `Text` | The string primitives the parser uses: `indexOf`, `split` on `\n`, and `trim` (generic in the character class, used with the ECMAScript white-space set). It also holds the character classes of the keyword pattern. |
| `params.dfy` | `Params` | The parameter parser of `src/cli.ts`: the keyword pattern, the value rule, the keyword split, last-write-wins assignment, mode dispatch, and the stdin forms. |
| `params_properties.dfy` | `ParamsProperties` | Properties of the parser: split points, which mode fires, what each mode produces, worked examples, and encode→parse round trips for positional and keyword tokens. |
| `rpc.dfy` | `Rpc`, `RpcObject` | The `RPC` class of `src/index.ts`, as a pure state machine (`RpcState`: target plus `seqNo`). `RpcObject` holds a class `RPC` with the same operations mutating a field, each method defined through the pure model. |
| `cli.dfy` | `Cli` | The rest of `main` in `src/cli.ts`: the signing gate, the response presenter, and the whole run composed from parse, build, sign, send and present. |

The program's collaborators become function-typed parameters:

- `JSON.parse` is `parse: string -> Result<Json, Cause>`. `JSON.stringify` appears only in the round-trip lemmas.
- The `@steemit/rpc-auth` signing primitive is `sign`.
- The HTTP POST of `utils.jsonRequest` is `transport`.
- Standard input is its text `stdin`.
- The environment variables `RPCIT_ACCOUNT` and `RPCIT_KEY` are `Env`, with `None` for an unset variable.

The model follows the code's JavaScript truthiness exactly, in two places where a looser reading would differ:

- `params` is attached when it is truthy, not merely when it was supplied. An empty positional list is therefore still sent as `params: []`. A `null`, `false`, `0` or `""` read from stdin is dropped.
- The presenter prints `error || result`. An error field that is present but falsy (`0`, `""`, `false`, `null`) falls through to the result and exits 0.

## Model

| member | source | states |
|---|---|---|
| Results.MapAll | src/cli.ts:96 | Mapping a throwing parser over tokens in order succeeds iff every element parses; the results keep input order. On failure it reports the smallest failing index and that element's error. |
| Text.IndexOf | src/cli.ts:20 | `indexOf('=')` is absent iff the token has no `=`. Otherwise it is the position of an `=` with none before it. |
| Text.Split | src/cli.ts:80 | `split('\n')` yields at least one piece and no piece contains a newline. Joining the pieces with newlines gives back the input. |
| Text.SplitJoin | src/cli.ts:80 | Splitting is the inverse of joining when no piece contains the separator. |
| Text.TrimSpec | src/cli.ts:81 | `trim()` returns the slice of the line that ends where trailing white space starts, with only white space before it, and neither starts nor ends with white space. |
| Text.TrimNoEdges | src/cli.ts:81 | A line that neither starts nor ends with white space is its own trim. |
| Text.TrimIdempotent | src/cli.ts:81 | Trimming an already trimmed line changes nothing. |
| Params.KeywordTokenMatchesShape | src/cli.ts:8 | The executable keyword test accepts exactly the tokens of the form: one or more ASCII letters or digits, optional `:`, `=`, then at least one character that is not a line terminator. |
| Params.SplitKeyword | src/cli.ts:20-29 | There is no split iff the token has no `=`. |
| Params.SplitKeywordSound | src/cli.ts:20-29 | The split found reads the token as `key=raw` with a key not ending in `:`, or as `key:=rest` with raw value `:rest`; the key holds no `=`. |
| Params.SplitKeywordUnique | src/cli.ts:20-29 | Any reading of the token in either of those two ways is the split found, so the first `=` decides it. |
| Params.ParseKeywordParam | src/cli.ts:19-39 | Fails with `InvalidParam` "Missing key=value pair" iff the token has no `=`. Any other failure is `InvalidParam` naming a key and carrying the parser's error. |
| ParamsProperties.SplitAtEquals | src/cli.ts:19-39 | For `key=rest` with no `=` in the key and no trailing `:`, the key is `key`. The value follows the value rule on `rest`, and a failure is `InvalidParam` naming `key`. |
| ParamsProperties.SplitAtColonEquals | src/cli.ts:24-32 | For `key:=rest` the colon moves from the key to the value, so `rest` is always JSON-parsed. A failure names `key`. |
| ParamsProperties.ColonEitherSide | src/cli.ts:24-28 | `key:=rest` and `key=:rest` parse to the same pair or the same error. |
| ParamsProperties.KeywordTokenKey | src/cli.ts:8 | A token matching the keyword pattern never fails for a missing `=`. Its key is its non-empty alphanumeric name. |
| ParamsProperties.EncodedKeywordMatches | src/cli.ts:8 | `name:=<one-line JSON>` matches the keyword pattern. |
| ParamsProperties.ValueRule | src/cli.ts:42-47 | A token starting with `:` is the JSON parse of the rest, failure included. Any other token, colon-free ones in particular, is returned verbatim as a string. |
| Params.AssignKeys | src/cli.ts:95-98 | The keyword object has exactly one entry per distinct key of the tokens. |
| Params.AssignLastWins | src/cli.ts:95-98 | Each key maps to the value of its last occurrence. |
| Params.ParseKeywordTokens | src/cli.ts:95-98 | Keyword mode succeeds iff every token splits and parses, and the result is an object. Otherwise the error is the first failing token's error. |
| Params.ParsePositionalTokens | src/cli.ts:100-110 | Positional mode succeeds iff every token parses, giving an array of the same length with element i = value of token i. Otherwise it fails `InvalidParam` at the smallest failing index, with that token's cause. |
| Params.ParseStdinDocument | src/cli.ts:84-91 | The `-` form is the JSON parse of the whole input. A failure is `InvalidParam` for stdin carrying the parse error. |
| Params.ParseLines | src/cli.ts:77-91 | The `_` form parses each kept line in order into an array of the same length. A failure is `InvalidParam` for stdin with the cause of the first failing line. |
| Params.DropEmpty | src/cli.ts:82 | `filter(line => line.length)` keeps at most as many lines, each non-empty and taken from the input. |
| Params.DropEmptyConcat | src/cli.ts:82 | The filter keeps order: filtering a concatenation concatenates the filtered parts. |
| Params.DropEmptyKeepsAll | src/cli.ts:82 | Lines that are all non-empty pass the filter unchanged. |
| Params.TrimAllKeeps | src/cli.ts:81 | `map(line => line.trim())` leaves lines without white space at either end unchanged. |
| ParamsProperties.StdinFormOnlyAlone | src/cli.ts:74 | The stdin forms fire exactly for the token lists `["-"]` and `["_"]`. |
| ParamsProperties.KeywordModeWhenAnyMatches | src/cli.ts:94 | Outside the stdin forms, keyword mode is chosen iff at least one token has the keyword pattern's shape. |
| ParamsProperties.KeywordModeRejectsBareToken | src/cli.ts:94-98 | In keyword mode every token takes the keyword path, so a token without `=` fails the whole parse. |
| ParamsProperties.KeywordFirstFailure | src/cli.ts:94-98 | In keyword mode, when token `i` is the first whose parse fails, the whole parse fails with that token's error. |
| ParamsProperties.MixedTokensExample | src/cli.ts:94-98 | `a=1 b` fails with "Missing key=value pair". |
| ParamsProperties.NoTokensEmptyArray | src/cli.ts:100-110 | No tokens give the empty array. |
| ParamsProperties.StdinOnlyReadForStdinForms | src/cli.ts:74-75 | Outside the two stdin forms the result does not depend on standard input. |
| ParamsProperties.PositionalForm | src/cli.ts:100-110 | The parser's result in positional mode: length, order and elementwise values, or the smallest failing index. |
| ParamsProperties.KeywordForm | src/cli.ts:94-98 | The parser's result in keyword mode when every token parses: one entry per distinct key, and a later duplicate overwrites an earlier one. |
| ParamsProperties.PositionalRoundTrip | src/cli.ts:100-110 | Values written as positional tokens are read back unchanged. Strings go verbatim unless they would read as JSON, a keyword pair or a stdin marker; everything else goes as `:` plus its JSON. |
| ParamsProperties.KeywordRoundTrip | src/cli.ts:94-98 | Named values written as `name:=<json>` are read back as the object that assigns them in order. |
| ParamsProperties.ColonMarksJson | src/cli.ts:42-47 | `:42` gives the number 42 and `42` gives the string "42". |
| ParamsProperties.StdinDocumentRoundTrip | src/cli.ts:74-85 | For any value the parser reads back from its printed text, `-` with that text on stdin yields the value itself. |
| ParamsProperties.StdinDocumentExample | src/cli.ts:84-85 | `-` with `["a","b"]` on stdin gives that array. |
| ParamsProperties.CleanLinesReadBack | src/cli.ts:77-82 | Lines with no newline and no white space at either end, each followed by a newline, are read back as exactly those lines in order. |
| ParamsProperties.StdinLinesExample | src/cli.ts:77-83 | `_` with `1\n2\n` on stdin gives `[1, 2]`; the trailing empty line is skipped. |
| Rpc.New | src/index.ts:13-18 | A new client starts with `seqNo` 0 and targets the given address with method POST. |
| Rpc.BuildRequest | src/index.ts:44-54 | `seqNo` increases by exactly 1 and the id is the new value. `jsonrpc` is "2.0" and `method` is the argument. `params` is present, and equal to the argument, iff the argument is truthy. The target is unchanged. |
| Rpc.FirstIdIsOne | src/index.ts:46 | The first request of a new client has id 1. |
| Rpc.IdsIncrease | src/index.ts:46 | Requests built in sequence get ids `seqNo+1, seqNo+2, …`. They are strictly increasing and never repeat, and the counter ends at the last id. |
| Rpc.Call | src/index.ts:20-22 | A call consumes one id and returns the transport's response to the built request. |
| Rpc.SignedCall | src/index.ts:24-28 | A signed call consumes one id even when signing throws. It sends the signer's output, built from the account and a one-element key list, and a signer exception propagates unchanged. |
| Rpc.EachCallConsumesOneId | src/index.ts:20-28 | Any sequence of plain and signed calls advances `seqNo` by exactly the number of calls and leaves the target unchanged. |
| Rpc.IdMismatchTolerated | src/index.ts:30-38 | For every transport, `send` returns exactly what the transport returns. The response id is never checked, so a mismatched or missing id comes back unchanged. |
| RpcObject.RPC.constructor | src/index.ts:15-18 | The object's options and counter equal the pure model's fresh client: POST to the parsed address, `seqNo` 0. |
| RpcObject.RPC.Call | src/index.ts:20-22 | Advances the object's `seqNo` by exactly one. Returns the pure model's call response for the state before the call. |
| RpcObject.RPC.SignedCall | src/index.ts:24-28 | Advances the object's `seqNo` by exactly one, whether or not signing succeeds. Returns the pure model's signed-call response for the state before the call. |
| RpcObject.RPC.BuildRequest | src/index.ts:44-54 | The class method advances the `seqNo` field by exactly 1 and returns the request the pure model builds from the old state. |
| Cli.SignGate | src/cli.ts:118-136 | A missing or empty account or key is `SigningError` without a cause. Otherwise the outcome is the signer's: its output, or `SigningError` carrying its exception. |
| Cli.MissingCredentialsSkipSigner | src/cli.ts:123-128 | Without both credentials the signing primitive cannot influence the outcome. |
| Cli.Present | src/cli.ts:142-146 | Raw mode prints the whole response and exits 0. Otherwise the exit code is 1 iff `error` is truthy, and anything printed is the error or the result, never `null`. |
| Cli.ErrorWinsOverResult | src/cli.ts:142-146 | Outside raw mode a truthy error is printed with exit code 1. Otherwise the result is printed with exit code 0, or nothing is printed when the result is missing or `null`. |
| Cli.PresentExamples | src/cli.ts:142-146 | `{"error": {…}}` prints the error and exits 1; `{"result": 5}` prints 5 and exits 0; raw mode exits 0. |
| Cli.UnsignedRequest | src/cli.ts:113-114 | Unsigned, the request is the first of a new client: id 1, "2.0", the method, and the parsed params only if truthy. |
| Cli.NoTokensSendEmptyArray | src/cli.ts:100-114 | With no tokens the request carries `params: []`. |
| Cli.SignedRequest | src/cli.ts:118-136 | With both credentials set, the id-1 request goes to the signer with the account and the single key. A signer exception becomes `SigningError` carrying it. |
| Cli.ParseErrorStopsRun | src/cli.ts:87-111 | A parameter error ends the run with that error; neither the signer nor the transport can change the outcome. |
| Cli.MissingCredentialsStopRun | src/cli.ts:123-128 | Signing without both credentials ends the run with `SigningError`, whatever the signer or the transport would do. |
| Cli.RunExitCode | src/cli.ts:141-146 | A completed run exits 1 iff not raw and the response's error is truthy. Raw mode prints the whole response. |
| Cli.TransportErrorPassesThrough | src/cli.ts:141 | A transport failure reaches the caller unwrapped. |

## Left out

- Reading standard input (`readStream`) and decoding it as UTF-8: the model takes the decoded text.
- Writing to stdout and stderr (`log`, with its TTY-dependent `inspect`/`JSON.stringify` formatting), and the `--verbose` diagnostics.
- Option wiring: the `commander` setup, the help text, the `sawAction` check, and setting `process.exitCode` or calling `process.exit`. `Run` returns the presentation or the error; the caller exits 1 on an error.
- The address override (`--dev` beats `--stage` beats `-a`): plain flag glue ahead of `main`.
- The JSON grammar (`JSON.parse`, `JSON.stringify`): these are function parameters. Numbers are reals, so double rounding is not modelled. A response is taken to be a JSON object.
- `url.parse`: the request target keeps the address text next to the fixed POST method.
- The `@steemit/rpc-auth` signing cryptography and the `utils.jsonRequest` HTTP call: these are function parameters. A signed request has the same envelope type as an unsigned one.
- Error message text: an error keeps its kind, the key, index or stdin it names, and its cause.
- Promise and async sequencing: the pipeline is modelled as the sequential composition it is.
- The key `__proto__` in keyword mode: JavaScript treats assigning it as a prototype setter, so it does not become an entry. The model stores it like any other key.
- `seqNo` beyond 2^53: JavaScript numbers lose integer precision there, and the model counts with unbounded naturals.
- Params.ParseKeywordParam: the contract gives the error kinds only; the key and value it produces are stated by Params.SplitKeywordSound, ParamsProperties.SplitAtEquals and ParamsProperties.SplitAtColonEquals.
