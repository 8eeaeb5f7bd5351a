/**
  `fetchData` and the error values of the caching fetch library. The network call itself is
  an input: the outcome a `fetch(url)` promise settles to.
*/
module Fetch {
  import opened Wrappers
  import opened JsonText

  /** A JavaScript `Error` object, seen through its message. */
  datatype Error = Error(message: string)

  /** The reason a promise rejects with: an `Error` object, or any other thrown value. */
  datatype Thrown = ThrownError(error: Error) | ThrownOther

  /** What `fetch(url)` settles to: a response (status code and body text), or a rejection. */
  datatype FetchOutcome = Responded(status: int, body: string) | Rejected(reason: Thrown)

  /** `response.ok`: the status lies in the range 200 to 299. */
  predicate IsOk(status: int): (ok: bool)
    ensures ok <==> 200 <= status < 300
  {
    200 <= status <= 299
  }

  const HttpErrorPrefix: string := "HTTP error! status: "

  /** The message `fetchData` throws for a response that is not ok. */
  function HttpErrorMessage(status: int): string
  {
    HttpErrorPrefix + IntText(status)
  }

  /**
    Stands for the message of the SyntaxError that `response.json()` rejects with when the
    body is not JSON; ECMAScript leaves its wording to the engine.
  */
  const BodySyntaxErrorMessage: string := "Unexpected token in JSON"

  const UnknownErrorMessage: string := "An unknown error occurred"

  /**
    `fetchData`: a rejection of `fetch` passes through unchanged, a status outside 200..299
    becomes an `Error` naming the status, and an ok response yields its body parsed as JSON.
  */
  function FetchData(outcome: FetchOutcome): (r: Result<Json, Thrown>)
    ensures r.Success? <==> outcome.Responded? && IsOk(outcome.status) && Parse(outcome.body).Some?
    ensures r.Success? ==> Parse(outcome.body) == Some(r.value)
    ensures outcome.Rejected? ==> r == Failure(outcome.reason)
    ensures outcome.Responded? && !IsOk(outcome.status) ==>
      r == Failure(ThrownError(Error(HttpErrorMessage(outcome.status))))
  {
    match outcome
    case Rejected(reason) => Failure(reason)
    case Responded(status, body) =>
      if !IsOk(status) then Failure(ThrownError(Error(HttpErrorMessage(status))))
      else
        match Parse(body)
        case None => Failure(ThrownError(Error(BodySyntaxErrorMessage)))
        case Some(v) => Success(v)
  }

  /** The hook's normalisation: an `Error` is kept, any other thrown value becomes a generic `Error`. */
  function AsError(reason: Thrown): (e: Error)
    ensures reason.ThrownError? ==> e == reason.error
    ensures reason.ThrownOther? ==> e.message == UnknownErrorMessage
  {
    match reason
    case ThrownError(error) => error
    case ThrownOther => Error(UnknownErrorMessage)
  }

  /** The status named by an HTTP error message, if the message is one. */
  function HttpStatusOf(message: string): Option<int>
  {
    if |HttpErrorPrefix| < |message| && message[..|HttpErrorPrefix|] == HttpErrorPrefix then
      match ParseScalar(message[|HttpErrorPrefix|..])
      case Some((JNumber(n), rest)) => if rest == [] then Some(n) else None
      case _ => None
    else None
  }

  /** An HTTP error message names its status, so a caller can tell the status back. */
  lemma HttpErrorNamesStatus(status: int)
    ensures HttpStatusOf(HttpErrorMessage(status)) == Some(status)
  {
    var m := HttpErrorMessage(status);
    assert m[..|HttpErrorPrefix|] == HttpErrorPrefix;
    assert m[|HttpErrorPrefix|..] == IntText(status) + [];
    IntRoundTrip(status, []);
  }

  /** Responses with different statuses fail with different messages, and none says "unknown". */
  lemma HttpErrorsDistinguishable(s1: int, s2: int)
    ensures HttpErrorMessage(s1) == HttpErrorMessage(s2) <==> s1 == s2
    ensures HttpErrorMessage(s1) != UnknownErrorMessage
  {
    HttpErrorNamesStatus(s1);
    HttpErrorNamesStatus(s2);
    assert HttpErrorMessage(s1)[0] == 'H';
  }
}
