/** The error-handling middleware, registered in the order
    badRequest, unauthorized, notfound, generic. Each non-final handler
    either answers or forwards the error unchanged; the generic handler
    answers everything and never echoes the error's own text. */
module ErrorHandlers {
  import opened Wrappers

  /** What an error is an instance of. */
  datatype ErrorKind = ValidationError | CastError | OtherError

  /** The error object handed to `next`: its class, its optional `status`
      property, its `message` and its optional `errorsList`. */
  datatype AppError = AppError(kind: ErrorKind, status: Option<int>, message: string, errorsList: Option<seq<string>>)

  /** A JSON response body; an absent `errorsList` is left out of the JSON. */
  datatype Body = Body(message: string, errorsList: Option<seq<string>>)

  datatype Response = Response(status: int, body: Body)

  /** What a non-final handler does with an error. */
  datatype Step = Respond(response: Response) | Forward(error: AppError)

  datatype Handler = BadRequest | Unauthorized | NotFound

  const BadIdText := "Please enter a correct ID"
  const ServerSideText := "Something happened on server side"

  /** The handler order of the server, before the final generic handler. */
  const ServerChain: seq<Handler> := [BadRequest, Unauthorized, NotFound]

  /** Whether a handler answers an error rather than forwarding it. */
  predicate Claims(h: Handler, e: AppError)
  {
    match h
    case BadRequest => e.status == Some(400) || e.kind == ValidationError || e.kind == CastError
    case Unauthorized => e.status == Some(401)
    case NotFound => e.status == Some(404)
  }

  function BadRequestHandler(e: AppError): (s: Step)
    ensures s.Respond? <==> Claims(BadRequest, e)
    ensures s.Respond? ==> s.response.status == 400
    ensures e.status == Some(400) || e.kind == ValidationError ==>
      s == Respond(Response(400, Body(e.message, e.errorsList)))
    ensures e.status != Some(400) && e.kind == CastError ==>
      s == Respond(Response(400, Body(BadIdText, None)))
    ensures s.Forward? ==> s.error == e
  {
    if e.status == Some(400) || e.kind == ValidationError then
      Respond(Response(400, Body(e.message, e.errorsList)))
    else if e.kind == CastError then
      Respond(Response(400, Body(BadIdText, None)))
    else
      Forward(e)
  }

  function UnauthorizedHandler(e: AppError): (s: Step)
    ensures s.Respond? <==> Claims(Unauthorized, e)
    ensures s.Respond? ==> s.response == Response(401, Body(e.message, None))
    ensures s.Forward? ==> s.error == e
  {
    if e.status == Some(401) then Respond(Response(401, Body(e.message, None))) else Forward(e)
  }

  function NotFoundHandler(e: AppError): (s: Step)
    ensures s.Respond? <==> Claims(NotFound, e)
    ensures s.Respond? ==> s.response == Response(404, Body(e.message, None))
    ensures s.Forward? ==> s.error == e
  {
    if e.status == Some(404) then Respond(Response(404, Body(e.message, None))) else Forward(e)
  }

  /** The catch-all: a 500 whose body is fixed, whatever the error says. */
  function GenericErrorHandler(e: AppError): (r: Response)
    ensures r.status == 500 && r.body.message == ServerSideText && r.body.errorsList.None?
  {
    Response(500, Body(ServerSideText, None))
  }

  function Apply(h: Handler, e: AppError): (s: Step)
    ensures s.Respond? <==> Claims(h, e)
    ensures s.Forward? ==> s.error == e
  {
    match h
    case BadRequest => BadRequestHandler(e)
    case Unauthorized => UnauthorizedHandler(e)
    case NotFound => NotFoundHandler(e)
  }

  /** Runs an error through the handlers `hs` and then the generic one. */
  function RunChain(hs: seq<Handler>, e: AppError): Response
    decreases |hs|
  {
    if hs == [] then GenericErrorHandler(e)
    else
      match Apply(hs[0], e)
      case Respond(r) => r
      case Forward(e') => RunChain(hs[1..], e')
  }

  /** The response the server sends for an error passed to `next`. */
  function Classify(e: AppError): Response
  {
    RunChain(ServerChain, e)
  }

  /** The first handler that claims an error is the one that answers it. */
  lemma {:induction false} ChainAnswersFromFirstClaimant(hs: seq<Handler>, e: AppError, i: nat)
    requires i < |hs| && Claims(hs[i], e)
    requires forall j :: 0 <= j < i ==> !Claims(hs[j], e)
    ensures RunChain(hs, e) == Apply(hs[i], e).response
    decreases i
  {
    if i > 0 {
      assert !Claims(hs[0], e);
      forall j | 0 <= j < i - 1 ensures !Claims(hs[1..][j], e) {
        assert hs[1..][j] == hs[j + 1];
      }
      ChainAnswersFromFirstClaimant(hs[1..], e, i - 1);
    }
  }

  /** An error that no handler claims reaches the generic handler unchanged. */
  lemma {:induction false} ChainFallsThrough(hs: seq<Handler>, e: AppError)
    requires forall j :: 0 <= j < |hs| ==> !Claims(hs[j], e)
    ensures RunChain(hs, e) == GenericErrorHandler(e)
    decreases |hs|
  {
    if hs != [] {
      forall j | 0 <= j < |hs| - 1 ensures !Claims(hs[1..][j], e) {
        assert hs[1..][j] == hs[j + 1];
      }
      ChainFallsThrough(hs[1..], e);
    }
  }

  /** The whole classification table of the server's chain. */
  lemma ClassifyTable(e: AppError)
    ensures e.status == Some(400) || e.kind == ValidationError ==>
      Classify(e) == Response(400, Body(e.message, e.errorsList))
    ensures e.kind == CastError && e.status != Some(400) ==>
      Classify(e) == Response(400, Body(BadIdText, None))
    ensures !Claims(BadRequest, e) && e.status == Some(401) ==>
      Classify(e) == Response(401, Body(e.message, None))
    ensures !Claims(BadRequest, e) && e.status == Some(404) ==>
      Classify(e) == Response(404, Body(e.message, None))
    ensures !Claims(BadRequest, e) && e.status != Some(401) && e.status != Some(404) ==>
      Classify(e) == Response(500, Body(ServerSideText, None))
  {
    var hs := ServerChain;
    if Claims(BadRequest, e) {
      ChainAnswersFromFirstClaimant(hs, e, 0);
    } else if Claims(Unauthorized, e) {
      ChainAnswersFromFirstClaimant(hs, e, 1);
    } else if Claims(NotFound, e) {
      ChainAnswersFromFirstClaimant(hs, e, 2);
    } else {
      ChainFallsThrough(hs, e);
    }
  }

  /** Every error gets one of four statuses, and a 500 is exactly an error
      that no handler claims; its body never carries the error's detail. */
  lemma ClassifyStatus(e: AppError)
    ensures Classify(e).status in {400, 401, 404, 500}
    ensures Classify(e).status == 500 <==> forall j :: 0 <= j < |ServerChain| ==> !Claims(ServerChain[j], e)
    ensures Classify(e).status == 500 ==> Classify(e).body == Body(ServerSideText, None)
  {
    ClassifyTable(e);
  }
}
