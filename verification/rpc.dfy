/** The JSON-RPC client object as a pure state machine: its state is the
    transport target and the sequence counter, and every operation returns
    the next state alongside its result. Signing and the HTTP round trip are
    collaborators passed in as functions. */
module Rpc {
  import opened Results
  import opened Json

  /** Where requests go: the endpoint address with the HTTP method fixed to
      POST. URL parsing is not modelled; the address is kept as given. */
  datatype RequestOpts = RequestOpts(address: string, httpMethod: string)

  /** A JSON-RPC 2.0 request envelope. `params` is absent (not `null`)
      when `None`. A signed request has the same shape, with whatever the
      signer put into it. */
  datatype Request = Request(id: nat, jsonrpc: string, methodName: string, params: Option<Json>)

  /** A JSON-RPC response object as the transport decoded it. */
  type Response = map<string, Json>

  /** An account and one private key. */
  datatype Signer = Signer(account: string, key: string)

  /** The signing primitive: request, account and key list to a signed
      request, or the exception it throws. */
  type SignPrimitive = (Request, string, seq<string>) -> Result<Request, Cause>

  /** The HTTP POST of a request to a target: the decoded response, or the
      network error. */
  type Transport = (RequestOpts, Request) -> Result<Response, Cause>

  /** The client's state: its target and the last id it handed out. */
  datatype RpcState = RpcState(requestOpts: RequestOpts, seqNo: nat)

  /** A new client for an address: POST to it, no id handed out yet. */
  function New(url: string): (s: RpcState)
    ensures s.seqNo == 0
    ensures s.requestOpts.address == url && s.requestOpts.httpMethod == "post"
  {
    RpcState(RequestOpts(url, "post"), 0)
  }

  /** A request together with the client state after building it. */
  datatype Built = Built(state: RpcState, request: Request)

  /** Builds the next request: the counter is incremented first and its new
      value is the id; `params` is attached only when it is truthy, so `[]`
      and `{}` are sent but `null`, `false`, `0`, `""` and `undefined` are
      omitted. Nothing but the counter changes. */
  function BuildRequest(s: RpcState, methodName: string, params: Option<Json>): (b: Built)
    ensures b.state.requestOpts == s.requestOpts
    ensures b.state.seqNo == s.seqNo + 1
    ensures b.request.id == b.state.seqNo
    ensures b.request.jsonrpc == "2.0" && b.request.methodName == methodName
    ensures b.request.params.Some? <==> TruthyOpt(params)
    ensures b.request.params.Some? ==> b.request.params == params
  {
    var s' := s.(seqNo := s.seqNo + 1);
    Built(s', Request(s'.seqNo, "2.0", methodName, if TruthyOpt(params) then params else None))
  }

  /** Sends a request and returns whatever the transport returned. The
      response id is not compared with the request id. */
  function Send(s: RpcState, request: Request, transport: Transport): Result<Response, Cause>
  {
    transport(s.requestOpts, request)
  }

  /** Hands the request to the signing primitive with the account and a
      one-element key list; its exception propagates as it is. */
  function SignRequest(signer: Signer, request: Request, sign: SignPrimitive): Result<Request, Cause>
  {
    sign(request, signer.account, [signer.key])
  }

  /** A call's response together with the client state after it. */
  datatype Called = Called(state: RpcState, response: Result<Response, Cause>)

  /** Builds one request and sends it. */
  function Call(s: RpcState, methodName: string, params: Option<Json>, transport: Transport): (c: Called)
    ensures c.state == s.(seqNo := s.seqNo + 1)
    ensures c.response == transport(s.requestOpts, BuildRequest(s, methodName, params).request)
  {
    var b := BuildRequest(s, methodName, params);
    Called(b.state, Send(b.state, b.request, transport))
  }

  /** Builds one request, signs it and sends the signed request. The id is
      consumed even when signing throws. */
  function SignedCall(s: RpcState, signer: Signer, methodName: string, params: Option<Json>,
                      sign: SignPrimitive, transport: Transport): (c: Called)
    ensures c.state == s.(seqNo := s.seqNo + 1)
    ensures var built := BuildRequest(s, methodName, params).request;
            c.response == match sign(built, signer.account, [signer.key])
                          case Err(e) => Err(e)
                          case Ok(signed) => transport(s.requestOpts, signed)
  {
    var b := BuildRequest(s, methodName, params);
    match SignRequest(signer, b.request, sign)
    case Err(e) => Called(b.state, Err(e))
    case Ok(signed) => Called(b.state, Send(b.state, signed, transport))
  }

  // ---------------------------------------------------------------------
  // Sequences of operations on one client

  /** The requests built by a run of `BuildRequest` calls, and the state after. */
  datatype Batch = Batch(state: RpcState, requests: seq<Request>)

  function BuildAll(s: RpcState, calls: seq<(string, Option<Json>)>): Batch
    decreases |calls|
  {
    if |calls| == 0 then Batch(s, [])
    else
      var b := BuildRequest(s, calls[0].0, calls[0].1);
      var rest := BuildAll(b.state, calls[1..]);
      Batch(rest.state, [b.request] + rest.requests)
  }

  /** Ids from one client are consecutive from the counter's next value:
      strictly increasing, never repeated, and the counter ends at the last. */
  lemma {:induction false} IdsIncrease(s: RpcState, calls: seq<(string, Option<Json>)>)
    ensures var batch := BuildAll(s, calls);
            && |batch.requests| == |calls|
            && batch.state == s.(seqNo := s.seqNo + |calls|)
            && (forall i :: 0 <= i < |calls| ==> batch.requests[i].id == s.seqNo + i + 1)
            && (forall i, j :: 0 <= i < j < |calls| ==> batch.requests[i].id < batch.requests[j].id)
    decreases |calls|
  {
    if |calls| > 0 {
      var b := BuildRequest(s, calls[0].0, calls[0].1);
      IdsIncrease(b.state, calls[1..]);
    }
  }

  /** The first request of a new client has id 1. */
  lemma FirstIdIsOne(url: string, methodName: string, params: Option<Json>)
    ensures BuildRequest(New(url), methodName, params).request.id == 1
  {
  }

  /** One client operation: a plain call or a signed call. */
  datatype Op =
    | PlainOp(methodName: string, params: Option<Json>)
    | SignedOp(signer: Signer, methodName: string, params: Option<Json>)

  /** Runs operations in order on one client, collecting the responses. */
  function Perform(s: RpcState, ops: seq<Op>, sign: SignPrimitive, transport: Transport): (r: (RpcState, seq<Result<Response, Cause>>))
    decreases |ops|
  {
    if |ops| == 0 then (s, [])
    else
      var c := match ops[0]
               case PlainOp(m, p) => Call(s, m, p, transport)
               case SignedOp(signer, m, p) => SignedCall(s, signer, m, p, sign, transport);
      var rest := Perform(c.state, ops[1..], sign, transport);
      (rest.0, [c.response] + rest.1)
  }

  /** Every call, signed or not and whatever its outcome, consumes exactly
      one id; the target never changes. */
  lemma {:induction false} EachCallConsumesOneId(s: RpcState, ops: seq<Op>, sign: SignPrimitive, transport: Transport)
    ensures var r := Perform(s, ops, sign, transport);
            r.0 == s.(seqNo := s.seqNo + |ops|) && |r.1| == |ops|
    decreases |ops|
  {
    if |ops| > 0 {
      var c := match ops[0]
               case PlainOp(m, p) => Call(s, m, p, transport)
               case SignedOp(signer, m, p) => SignedCall(s, signer, m, p, sign, transport);
      EachCallConsumesOneId(c.state, ops[1..], sign, transport);
    }
  }

  /** Whatever the transport returns is the call's result: the response id
      is never compared with the request id, so a mismatched or missing id
      is returned all the same. */
  lemma IdMismatchTolerated(s: RpcState, request: Request, transport: Transport)
    ensures Send(s, request, transport) == transport(s.requestOpts, request)
    ensures forall response: Response ::
              Send(s, request, (o: RequestOpts, q: Request) => Ok(response)) == Ok(response)
  {
  }
}

/** The client as the source writes it: an object whose counter field the
    operations advance in place. Each method delegates to the pure model. */
module RpcObject {
  import opened Results
  import opened Json
  import Rpc

  class RPC {
    const requestOpts: Rpc.RequestOpts
    var seqNo: nat

    constructor(url: string)
      ensures Rpc.RpcState(requestOpts, seqNo) == Rpc.New(url)
    {
      var s := Rpc.New(url);
      requestOpts := s.requestOpts;
      seqNo := s.seqNo;
    }

    function State(): Rpc.RpcState
      reads this
    {
      Rpc.RpcState(requestOpts, seqNo)
    }

    method BuildRequest(methodName: string, params: Option<Json>) returns (req: Rpc.Request)
      modifies this
      ensures seqNo == old(seqNo) + 1
      ensures req == Rpc.BuildRequest(old(State()), methodName, params).request
    {
      var b := Rpc.BuildRequest(State(), methodName, params);
      seqNo := b.state.seqNo;
      req := b.request;
    }

    method Call(methodName: string, params: Option<Json>, transport: Rpc.Transport)
      returns (response: Result<Rpc.Response, Cause>)
      modifies this
      ensures seqNo == old(seqNo) + 1
      ensures response == Rpc.Call(old(State()), methodName, params, transport).response
    {
      var req := BuildRequest(methodName, params);
      response := Rpc.Send(State(), req, transport);
    }

    method SignedCall(signer: Rpc.Signer, methodName: string, params: Option<Json>,
                      sign: Rpc.SignPrimitive, transport: Rpc.Transport)
      returns (response: Result<Rpc.Response, Cause>)
      modifies this
      ensures seqNo == old(seqNo) + 1
      ensures response == Rpc.SignedCall(old(State()), signer, methodName, params, sign, transport).response
    {
      var req := BuildRequest(methodName, params);
      var signed := Rpc.SignRequest(signer, req, sign);
      match signed {
        case Err(e) => response := Err(e);
        case Ok(r) => response := Rpc.Send(State(), r, transport);
      }
    }
  }
}
