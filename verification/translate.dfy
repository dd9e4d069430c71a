/** The two translation stages. Each forwards, in order, the translation of
    every input it receives and stops at the first input whose translation
    fails; the failing input is consumed and dropped. */
module Translate {
  import opened Wrappers
  import opened Events

  type Bytes = seq<bv8>

  /** The failures the stages log before stopping. */
  datatype StageError =
    | UnmarshalTracesFailed
    | MarshalTracesFailed
    | UnmarshalRequestFailed
    | TranslateTraceFailed

  /** The translations of the longest prefix of `xs` whose every
      translation succeeds. */
  function TakeWhileOk<A, B, E>(xs: seq<A>, f: A -> Result<B, E>): (r: seq<B>)
    ensures |r| <= |xs|
    ensures forall i :: 0 <= i < |r| ==> f(xs[i]) == Success(r[i])
    ensures |r| < |xs| ==> f(xs[|r|]).Failure?
  {
    if |xs| == 0 then []
    else match f(xs[0])
      case Failure(_) => []
      case Success(y) => [y] + TakeWhileOk(xs[1..], f)
  }

  /** The converse of TakeWhileOk's contract: any sequence of successful
      translations of a prefix, followed by a failure or the end of the
      input, is that prefix's TakeWhileOk. */
  lemma {:induction false} TakeWhileOkIs<A, B, E>(xs: seq<A>, f: A -> Result<B, E>, r: seq<B>)
    requires |r| <= |xs|
    requires forall i :: 0 <= i < |r| ==> f(xs[i]) == Success(r[i])
    requires |r| < |xs| ==> f(xs[|r|]).Failure?
    ensures r == TakeWhileOk(xs, f)
  {
    var t := TakeWhileOk(xs, f);
    forall i | 0 <= i < |r|
      ensures r[i] == t[i]
    {
      assert Success(r[i]) == f(xs[i]) == Success(t[i]);
    }
  }

  /** The receive loop shared by both stages: take the next input, translate
      it, forward the translation or stop on failure. `consumed` counts the
      inputs taken from upstream. */
  method ForwardUntilFailure<A, B, E>(xs: seq<A>, f: A -> Result<B, E>) returns (out: seq<B>, consumed: nat)
    ensures |out| <= |xs|
    ensures forall i :: 0 <= i < |out| ==> f(xs[i]) == Success(out[i])
    ensures |out| < |xs| ==> f(xs[|out|]).Failure?
    ensures consumed == (if |out| < |xs| then |out| + 1 else |xs|)
  {
    out, consumed := [], 0;
    while consumed < |xs|
      invariant consumed <= |xs|
      invariant |out| == consumed
      invariant forall i :: 0 <= i < consumed ==> f(xs[i]) == Success(out[i])
    {
      var x := xs[consumed];
      match f(x)
      case Failure(_) =>
        consumed := consumed + 1;
        return;
      case Success(y) =>
        out := out + [y];
        consumed := consumed + 1;
    }
  }

  /** The foreign codecs of the trace stage: OTLP JSON to a trace model, the
      model to protobuf bytes, and the bytes to an export request. */
  datatype TraceCodec<!Traces, Request> = TraceCodec(
    unmarshalTraces: Bytes -> Option<Traces>,
    marshalTraces: Traces -> Option<Bytes>,
    unmarshalRequest: Bytes -> Option<Request>)

  /** One record through the three hops, stopping at the first that fails. */
  function ToRequest<Traces, Request>(codec: TraceCodec<Traces, Request>, record: Bytes): Result<Request, StageError>
  {
    match codec.unmarshalTraces(record)
    case None => Failure(UnmarshalTracesFailed)
    case Some(traces) =>
      match codec.marshalTraces(traces)
      case None => Failure(MarshalTracesFailed)
      case Some(bytes) =>
        match codec.unmarshalRequest(bytes)
        case None => Failure(UnmarshalRequestFailed)
        case Some(request) => Success(request)
  }

  function TraceStep<Traces, Request>(codec: TraceCodec<Traces, Request>): Bytes -> Result<Request, StageError>
  {
    record => ToRequest(codec, record)
  }

  /** The trace stage: raw JSON records to export requests. */
  method TranslateCollectorTraces<Traces, Request>(codec: TraceCodec<Traces, Request>, records: seq<Bytes>)
    returns (requests: seq<Request>, consumed: nat)
    ensures |requests| <= |records|
    ensures forall i :: 0 <= i < |requests| ==>
      && codec.unmarshalTraces(records[i]).Some?
      && codec.marshalTraces(codec.unmarshalTraces(records[i]).value).Some?
      && codec.unmarshalRequest(codec.marshalTraces(codec.unmarshalTraces(records[i]).value).value) == Some(requests[i])
    ensures |requests| < |records| ==>
      || codec.unmarshalTraces(records[|requests|]).None?
      || codec.marshalTraces(codec.unmarshalTraces(records[|requests|]).value).None?
      || codec.unmarshalRequest(codec.marshalTraces(codec.unmarshalTraces(records[|requests|]).value).value).None?
    ensures consumed == (if |requests| < |records| then |requests| + 1 else |records|)
  {
    requests, consumed := ForwardUntilFailure(records, TraceStep(codec));
  }

  /** The request details handed to the event translator. The key is a
      placeholder: the translator needs one but does not use it. */
  datatype RequestInfo = RequestInfo(apiKey: string, contentType: string)

  const TranslationInfo: RequestInfo := RequestInfo("junk", "application/protobuf")

  /** The foreign translation of an export request into batches of events. */
  type EventTranslator<!Request> = (Request, RequestInfo) -> Option<TranslationResult>

  /** One request through husky's translation. */
  function ToResult<Request>(translate: EventTranslator<Request>, request: Request): Result<TranslationResult, StageError>
  {
    match translate(request, TranslationInfo)
    case None => Failure(TranslateTraceFailed)
    case Some(result) => Success(result)
  }

  function EventStep<Request>(translate: EventTranslator<Request>): Request -> Result<TranslationResult, StageError>
  {
    request => ToResult(translate, request)
  }

  /** The event stage: export requests to translation results, each
      translated with the placeholder key and protobuf content type. */
  method TranslateTraceRequest<Request>(translate: EventTranslator<Request>, requests: seq<Request>)
    returns (results: seq<TranslationResult>, consumed: nat)
    ensures |results| <= |requests|
    ensures forall i :: 0 <= i < |results| ==> translate(requests[i], TranslationInfo) == Some(results[i])
    ensures |results| < |requests| ==> translate(requests[|results|], TranslationInfo).None?
    ensures consumed == (if |results| < |requests| then |results| + 1 else |requests|)
  {
    results, consumed := ForwardUntilFailure(requests, EventStep(translate));
  }
}
