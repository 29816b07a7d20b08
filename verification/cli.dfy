/** One run of the command-line client: parse the parameters, build the
    request on a new client, sign it when asked, send it, and decide what to
    print and which exit code to return. Standard input arrives as its text,
    the environment as the two credential variables, and JSON parsing,
    signing and the transport as collaborators. */
module Cli {
  import opened Results
  import opened Json
  import opened Params
  import opened Rpc

  /** The command-line flags that reach the pipeline (`--verbose` only adds
      diagnostic output and is not modelled). */
  datatype Options = Options(address: string, raw: bool, sign: bool)

  /** The credential variables `RPCIT_ACCOUNT` and `RPCIT_KEY`; `None` when unset. */
  datatype Env = Env(account: Option<string>, key: Option<string>)

  /** JavaScript truthiness of an environment variable: set and non-empty. */
  predicate IsSet(v: Option<string>) {
    v.Some? && |v.value| > 0
  }

  /** What a successful run prints to standard output (if anything) and the
      exit code it sets. */
  datatype Presentation = Presentation(output: Option<Json>, exitCode: nat)

  /** Why a run stopped: an error the client raised itself, or the
      transport's error, passed on unwrapped. */
  datatype RunError = Rejected(error: CliError) | TransportFailed(cause: Cause)

  // ---------------------------------------------------------------------
  // Signing gate

  /** Signs the request only when both credentials are set; a missing one is
      a `SigningError` raised before the primitive is called, and an exception
      from the primitive is re-raised as a `SigningError` with it as cause. */
  function SignGate(env: Env, request: Request, sign: SignPrimitive): (r: Result<Request, CliError>)
    ensures !(IsSet(env.account) && IsSet(env.key)) ==> r == Err(SigningError(None))
    ensures IsSet(env.account) && IsSet(env.key) ==>
              var signed := sign(request, env.account.value, [env.key.value]);
              && (r.Ok? <==> signed.Ok?)
              && (r.Ok? ==> r.value == signed.value)
              && (r.Err? ==> r.error == SigningError(Some(signed.error)))
  {
    if !IsSet(env.account) || !IsSet(env.key) then Err(SigningError(None))
    else
      match SignRequest(Signer(env.account.value, env.key.value), request, sign)
      case Ok(signed) => Ok(signed)
      case Err(e) => Err(SigningError(Some(e)))
  }

  /** Without both credentials the primitive is never consulted: any two
      signing primitives give the same outcome. */
  lemma MissingCredentialsSkipSigner(env: Env, request: Request, sign1: SignPrimitive, sign2: SignPrimitive)
    requires !IsSet(env.account) || !IsSet(env.key)
    ensures SignGate(env, request, sign1) == SignGate(env, request, sign2)
    ensures SignGate(env, request, sign1).Err? && SignGate(env, request, sign1).error.SigningError?
  {
  }

  // ---------------------------------------------------------------------
  // Response presenter

  /** Raw mode prints the whole response and exits 0. Otherwise the value
      shown is `error || result`, printed only when it is neither `undefined`
      nor `null`, and the exit code is 1 exactly when `error` is truthy. */
  function Present(response: Response, raw: bool): (p: Presentation)
    ensures raw ==> p == Presentation(Some(JObject(response)), 0)
    ensures p.exitCode == 0 || p.exitCode == 1
    ensures p.exitCode == 1 <==> !raw && TruthyOpt(Field(response, "error"))
    ensures !raw && p.output.Some? ==>
              p.output.value != JNull
              && (p.output == Field(response, "error") || p.output == Field(response, "result"))
  {
    if raw then Presentation(Some(JObject(response)), 0)
    else
      var error := Field(response, "error");
      var out := if TruthyOpt(error) then error else Field(response, "result");
      Presentation(if NotNullish(out) then out else None, if TruthyOpt(error) then 1 else 0)
  }

  /** Outside raw mode a truthy error is always what gets printed, and only
      then is the exit code 1; otherwise the result is printed unless it is
      missing or `null`. */
  lemma ErrorWinsOverResult(response: Response)
    ensures var p := Present(response, false);
            var error := Field(response, "error");
            var result := Field(response, "result");
            && (TruthyOpt(error) ==> p == Presentation(error, 1))
            && (!TruthyOpt(error) && NotNullish(result) ==> p == Presentation(result, 0))
            && (!TruthyOpt(error) && !NotNullish(result) ==> p == Presentation(None, 0))
  {
  }

  /** The presenter on the two shapes of a JSON-RPC response. */
  lemma PresentExamples(errorObject: map<string, Json>)
    ensures Present(map["error" := JObject(errorObject)], false) == Presentation(Some(JObject(errorObject)), 1)
    ensures Present(map["result" := JNumber(5.0)], false) == Presentation(Some(JNumber(5.0)), 0)
    ensures Present(map["error" := JObject(errorObject)], true).exitCode == 0
  {
  }

  // ---------------------------------------------------------------------
  // The whole run

  /** The parameters, the request built on a new client, and the request
      after the optional signing step. */
  function Prepare(methodName: string, tokens: seq<string>, stdin: string, opts: Options, env: Env,
                   parse: Parser, sign: SignPrimitive): Result<Built, CliError>
  {
    var params :- ParseParams(tokens, stdin, parse);
    var built := BuildRequest(New(opts.address), methodName, Some(params));
    if opts.sign then
      var signed :- SignGate(env, built.request, sign);
      Ok(Built(built.state, signed))
    else
      Ok(built)
  }

  /** A complete run. Every error stops the pipeline where it arises. */
  function Run(methodName: string, tokens: seq<string>, stdin: string, opts: Options, env: Env,
               parse: Parser, sign: SignPrimitive, transport: Transport): Result<Presentation, RunError>
  {
    match Prepare(methodName, tokens, stdin, opts, env, parse, sign)
    case Err(e) => Err(Rejected(e))
    case Ok(b) =>
      match Send(b.state, b.request, transport)
      case Err(c) => Err(TransportFailed(c))
      case Ok(response) => Ok(Present(response, opts.raw))
  }

  /** Unsigned, the request sent is the first of a new client: id 1,
      version "2.0", the method, and the parameters when they are truthy. An
      empty positional list is still sent as `[]`; a `null`, `false`, `0` or
      `""` read from stdin is left out. */
  lemma UnsignedRequest(methodName: string, tokens: seq<string>, stdin: string, opts: Options, env: Env,
                        parse: Parser, sign: SignPrimitive)
    requires !opts.sign && ParseParams(tokens, stdin, parse).Ok?
    ensures var params := ParseParams(tokens, stdin, parse).value;
            Prepare(methodName, tokens, stdin, opts, env, parse, sign) ==
              Ok(Built(RpcState(RequestOpts(opts.address, "post"), 1),
                       Request(1, "2.0", methodName, if Truthy(params) then Some(params) else None)))
  {
  }

  /** No tokens, unsigned: the request carries `params: []`. */
  lemma NoTokensSendEmptyArray(methodName: string, stdin: string, opts: Options, env: Env,
                               parse: Parser, sign: SignPrimitive)
    requires !opts.sign
    ensures Prepare(methodName, [], stdin, opts, env, parse, sign).Ok?
    ensures Prepare(methodName, [], stdin, opts, env, parse, sign).value.request.params == Some(JArray([]))
  {
  }

  /** A parse error ends the run before signing or sending: neither
      collaborator can change the outcome. */
  lemma ParseErrorStopsRun(methodName: string, tokens: seq<string>, stdin: string, opts: Options, env: Env,
                           parse: Parser, sign1: SignPrimitive, sign2: SignPrimitive,
                           transport1: Transport, transport2: Transport)
    requires ParseParams(tokens, stdin, parse).Err?
    ensures Run(methodName, tokens, stdin, opts, env, parse, sign1, transport1) ==
            Err(Rejected(ParseParams(tokens, stdin, parse).error))
    ensures Run(methodName, tokens, stdin, opts, env, parse, sign1, transport1) ==
            Run(methodName, tokens, stdin, opts, env, parse, sign2, transport2)
  {
  }

  /** Signing requested without both credentials fails with `SigningError`
      whatever the signer or the transport would have done. */
  lemma MissingCredentialsStopRun(methodName: string, tokens: seq<string>, stdin: string, opts: Options, env: Env,
                                  parse: Parser, sign1: SignPrimitive, sign2: SignPrimitive,
                                  transport1: Transport, transport2: Transport)
    requires opts.sign && ParseParams(tokens, stdin, parse).Ok?
    requires !IsSet(env.account) || !IsSet(env.key)
    ensures Run(methodName, tokens, stdin, opts, env, parse, sign1, transport1) == Err(Rejected(SigningError(None)))
    ensures Run(methodName, tokens, stdin, opts, env, parse, sign1, transport1) ==
            Run(methodName, tokens, stdin, opts, env, parse, sign2, transport2)
  {
  }

  /** Signed, with both credentials set: the first request of a new client
      goes to the signer with the account and the one key, and a signer
      exception comes back as `SigningError` carrying it. */
  lemma SignedRequest(methodName: string, tokens: seq<string>, stdin: string, opts: Options, env: Env,
                      parse: Parser, sign: SignPrimitive)
    requires opts.sign && ParseParams(tokens, stdin, parse).Ok?
    requires IsSet(env.account) && IsSet(env.key)
    ensures var params := ParseParams(tokens, stdin, parse).value;
            var built := Request(1, "2.0", methodName, if Truthy(params) then Some(params) else None);
            var signed := sign(built, env.account.value, [env.key.value]);
            Prepare(methodName, tokens, stdin, opts, env, parse, sign) ==
              match signed
              case Ok(r) => Ok(Built(RpcState(RequestOpts(opts.address, "post"), 1), r))
              case Err(e) => Err(SigningError(Some(e)))
  {
  }

  /** The exit code of a completed run: 1 exactly when not raw and the
      response's error is truthy; raw mode always prints the whole response. */
  lemma RunExitCode(methodName: string, tokens: seq<string>, stdin: string, opts: Options, env: Env,
                    parse: Parser, sign: SignPrimitive, transport: Transport)
    requires Run(methodName, tokens, stdin, opts, env, parse, sign, transport).Ok?
    ensures var p := Run(methodName, tokens, stdin, opts, env, parse, sign, transport).value;
            var b := Prepare(methodName, tokens, stdin, opts, env, parse, sign).value;
            var response := transport(b.state.requestOpts, b.request).value;
            && (p.exitCode == 1 <==> !opts.raw && TruthyOpt(Field(response, "error")))
            && (opts.raw ==> p.exitCode == 0 && p.output == Some(JObject(response)))
  {
  }

  /** A transport failure reaches the caller unwrapped. */
  lemma TransportErrorPassesThrough(methodName: string, tokens: seq<string>, stdin: string, opts: Options, env: Env,
                                    parse: Parser, sign: SignPrimitive, cause: Cause)
    requires Prepare(methodName, tokens, stdin, opts, env, parse, sign).Ok?
    ensures Run(methodName, tokens, stdin, opts, env, parse, sign, (o: RequestOpts, q: Request) => Err(cause)) ==
            Err(TransportFailed(cause))
  {
  }
}
