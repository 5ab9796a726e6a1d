/**
 * get_flag and download_one: one country code's request, the three-way
 * classification of the reply and the mapping of that classification to a
 * Result or a FetchError.
 *
 * The network is a parameter: `network(url)` is the reply the server gives to
 * a GET of `url` (or the exception the HTTP client raises).
 */
module Fetch {
  import opened FlagsCommon

  /** A Python exception as the error report sees it: its class name and args. */
  datatype Exc = Exc(className: string, args: seq<string>)

  /** What aiohttp.request and resp.read give back for one URL. */
  datatype Reply =
    | Response(status: int, reason: string, body: seq<bv8>)
    | TransportFailure(exc: Exc)

  /** The exception get_flag lets escape, which becomes a FetchError's __cause__. */
  datatype Cause =
    | HttpProcessingError(code: int, message: string)
    | Raised(exc: Exc)

  /** How a call of get_flag ends: it returns the image or raises. */
  datatype Fetched =
    | Image(data: seq<bv8>)
    | HttpNotFound
    | Failure(cause: Cause)

  /** FetchError(country_code), raised `from` its cause. */
  datatype FetchError = FetchError(countryCode: string, cause: Cause)

  /** How a call of download_one ends: it returns a Result (and, on success,
      has handed one save_flag call to the executor) or raises FetchError. */
  datatype TaskOutcome =
    | Returned(result: FlagResult, save: Option<SaveJob>)
    | Failed(error: FetchError)

  /** The file name the image is saved under. */
  function SaveName(cc: string): (name: string)
    ensures |name| == |cc| + 4
    ensures name[|cc|..] == ".gif"
    ensures name[..|cc|] == Lower(cc)
  {
    Lower(cc) + ".gif"
  }

  /** '{}/{cc}/{cc}.gif'.format(base_url, cc=cc.lower()) */
  function FlagUrl(baseUrl: string, cc: string): string {
    baseUrl + "/" + Lower(cc) + "/" + Lower(cc) + ".gif"
  }

  /** The URL is the base URL, the lower-cased code as a directory, and the
      very name the image is later saved under; it ignores the case of cc. */
  lemma FlagUrlShape(baseUrl: string, cc: string)
    ensures FlagUrl(baseUrl, cc) == baseUrl + "/" + Lower(cc) + "/" + SaveName(cc)
    ensures FlagUrl(baseUrl, Lower(cc)) == FlagUrl(baseUrl, cc)
    ensures |FlagUrl(baseUrl, cc)| == |baseUrl| + 2 * |cc| + 6
  {
    LowerIdempotent(cc);
  }

  /** get_flag(base_url, cc): status 200 gives the body, 404 raises
      HTTPNotFound, any other status raises HttpProcessingError carrying that
      status; a failure of the HTTP client itself propagates unchanged. */
  function GetFlag(baseUrl: string, cc: string, network: string -> Reply): (r: Fetched)
    ensures var reply := network(FlagUrl(baseUrl, cc));
      && (r.Image? <==> reply.Response? && reply.status == 200)
      && (r.HttpNotFound? <==> reply.Response? && reply.status == 404)
      && (r.Failure? <==> reply.TransportFailure? || reply.status !in {200, 404})
      && (r.Image? ==> r.data == reply.body)
      && (r.Failure? && reply.Response? ==> r.cause == HttpProcessingError(reply.status, reply.reason))
      && (reply.TransportFailure? ==> r == Failure(Raised(reply.exc)))
  {
    match network(FlagUrl(baseUrl, cc))
    case TransportFailure(exc) => Failure(Raised(exc))
    case Response(status, reason, body) =>
      if status == 200 then Image(body)
      else if status == 404 then HttpNotFound
      else Failure(HttpProcessingError(status, reason))
  }

  /** download_one(cc, base_url, semaphore, verbose), the gate left aside:
      not-found is an ordinary Result, success is a Result after the save has
      been dispatched, and every other exception is re-raised as FetchError(cc). */
  function DownloadOne(cc: string, baseUrl: string, network: string -> Reply): (r: TaskOutcome)
    ensures r.Returned? ==> r.result.cc == cc && r.result.status != Error
    ensures r.Failed? ==> r.error.countryCode == cc
    ensures r.Returned? && r.result.status == Ok <==> GetFlag(baseUrl, cc, network).Image?
    ensures r.Returned? && r.result.status == NotFound <==> GetFlag(baseUrl, cc, network).HttpNotFound?
    ensures r.Failed? <==> GetFlag(baseUrl, cc, network).Failure?
    ensures r.Failed? ==> r.error.cause == GetFlag(baseUrl, cc, network).cause
    ensures r.Returned? ==> (r.save.Some? <==> r.result.status == Ok)
    ensures r.Returned? && r.save.Some? ==>
      r.save.value == SaveJob(GetFlag(baseUrl, cc, network).data, SaveName(cc))
  {
    Settle(cc, GetFlag(baseUrl, cc, network))
  }

  /** The except/else arms of download_one, once get_flag has returned or raised. */
  function Settle(cc: string, fetched: Fetched): TaskOutcome {
    match fetched
    case HttpNotFound => Returned(FlagResult(NotFound, cc), None)
    case Failure(cause) => Failed(FetchError(cc, cause))
    case Image(image) => Returned(FlagResult(Ok, cc), Some(SaveJob(image, SaveName(cc))))
  }

  /** The status downloader_coro counts a finished task under: error for a
      FetchError, the Result's own status otherwise. */
  function StatusOf(outcome: TaskOutcome): HttpStatus {
    match outcome
    case Failed(_) => Error
    case Returned(result, _) => result.status
  }

  /** End to end, a country code is counted ok exactly when its URL answers
      200, not_found exactly when it answers 404, and error otherwise. */
  lemma ItemStatusCases(cc: string, baseUrl: string, network: string -> Reply)
    ensures var reply := network(FlagUrl(baseUrl, cc));
      && (StatusOf(DownloadOne(cc, baseUrl, network)) == Ok <==> reply.Response? && reply.status == 200)
      && (StatusOf(DownloadOne(cc, baseUrl, network)) == NotFound <==> reply.Response? && reply.status == 404)
      && (StatusOf(DownloadOne(cc, baseUrl, network)) == Error <==>
            reply.TransportFailure? || reply.status !in {200, 404})
  {
  }

  /** The exception object behind a cause. aiohttp builds the args of an
      HttpProcessingError itself; `processingErrorArgs(code, message)` stands for them. */
  function CauseException(cause: Cause, processingErrorArgs: (int, string) -> seq<string>): (e: Exc)
    ensures cause.Raised? ==> e == cause.exc
    ensures cause.HttpProcessingError? ==> e.className == "HttpProcessingError"
  {
    match cause
    case Raised(exc) => exc
    case HttpProcessingError(code, message) => Exc("HttpProcessingError", processingErrorArgs(code, message))
  }

  /** The message reported for a FetchError: the cause's first argument, or
      the cause's class name when its args are empty. */
  function ErrorMessage(cause: Exc): (msg: string)
    ensures |cause.args| > 0 ==> msg == cause.args[0]
    ensures |cause.args| == 0 ==> msg == cause.className
    ensures msg in cause.args || msg == cause.className
  {
    if |cause.args| > 0 then cause.args[0] else cause.className
  }

  /** The NameError Python raises when a name is looked up and not found. */
  function NameError(name: string): Exc {
    Exc("NameError", ["name '" + name + "' is not defined"])
  }

  /** download_one as written: its parameter is spelled `semaphor`, but its
      body reads `semaphore`, which is neither a local nor a global there.
      The lookup fails before any request is made, inside the try, so the
      NameError is re-raised as FetchError(cc) whatever the server would say. */
  function DownloadOneAsWritten(cc: string, baseUrl: string, network: string -> Reply): (r: TaskOutcome)
    ensures r.Failed? && r.error.countryCode == cc
    ensures ErrorMessage(CauseException(r.error.cause, (_, _) => [])) == "name 'semaphore' is not defined"
  {
    Failed(FetchError(cc, Raised(NameError("semaphore"))))
  }

  /** As written, the outcome does not depend on anything the server says. */
  lemma AsWrittenIgnoresNetwork(cc: string, baseUrl: string, n1: string -> Reply, n2: string -> Reply)
    ensures DownloadOneAsWritten(cc, baseUrl, n1) == DownloadOneAsWritten(cc, baseUrl, n2)
  {
  }

  /** A server that answers every URL with 200: the intended download_one
      reports ok, the one as written reports an error. */
  lemma AsWrittenDiffers()
    ensures var network := (_: string) => Response(200, "OK", []);
      && StatusOf(DownloadOne("BR", "http://localhost/flags", network)) == Ok
      && StatusOf(DownloadOneAsWritten("BR", "http://localhost/flags", network)) == Error
  {
  }
}
