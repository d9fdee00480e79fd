/** The boundary with the pricing service as the handlers see it through
    axios: what a request can come back with, the error object a failed
    request rejects with, and the two error-message classifiers. */
module Http {
  import opened Wrappers
  import opened JsValue
  import opened Text

  /** Timeouts configured on the single and batch requests (milliseconds). */
  const SingleTimeoutMs: nat := 30000
  const BatchTimeoutMs: nat := 120000

  /** Why a request failed: a non-2xx response (status and body), no
      response at all, or the configured timeout elapsing. */
  datatype Failure = HttpError(status: nat, data: Value) | NetworkError | Timeout

  /** What one request comes back with: a 2xx body, or a failure. */
  datatype Reply = Ok(body: Value) | Fail(failure: Failure)

  /** axios' `code` for a response with this status. */
  function StatusCode(status: nat): Value
  {
    if status / 100 == 4 then Str("ERR_BAD_REQUEST")
    else if status / 100 == 5 then Str("ERR_BAD_RESPONSE")
    else Undefined
  }

  /** The error object axios rejects with, as far as the handlers read it. */
  function Rejection(f: Failure, timeoutMs: nat): Thrown
  {
    match f
    case HttpError(status, data) =>
      Thrown(Some(data), StatusCode(status), "Request failed with status code " + Decimal(status))
    case NetworkError => Thrown(None, Str("ERR_NETWORK"), "Network Error")
    case Timeout => Thrown(None, Str("ECONNABORTED"), "timeout of " + Decimal(timeoutMs) + "ms exceeded")
  }

  /** `data?.detail` for a response body. */
  function BodyDetail(data: Value): Value
  {
    if Nullish(data) then Undefined else Get(data, "detail")
  }

  /** `e.response?.data?.detail` */
  function Detail(e: Thrown): Value
  {
    if e.response.Some? then BodyDetail(e.response.value) else Undefined
  }

  const CannotConnect := "Cannot connect to API server"
  const SingleTimeoutText := "Request timeout - server is taking too long to respond"
  const UploadTimeoutText := "Request timeout - file too large or server busy"

  /** The message the single-recommendation handler shows for a caught
      error: the server's detail first, then a "Network Error" message, then
      a message mentioning "timeout", else a generic one. It is always truthy,
      so the error is always displayed. */
  function SingleErrorMessage(e: Thrown): (m: Value)
    ensures Truthy(m)
    ensures Truthy(Detail(e)) ==> m == Detail(e)
    ensures !Truthy(Detail(e)) ==> m.Str?
  {
    if Truthy(Detail(e)) then Detail(e)
    else if Includes(e.message, "Network Error") then Str(CannotConnect)
    else if Includes(e.message, "timeout") then Str(SingleTimeoutText)
    else Str("Server error")
  }

  /** The message the upload handler shows for a caught error: the server's
      detail first, then the `ECONNABORTED` code, then a "Network Error"
      message, else a generic one. Always truthy. */
  function UploadErrorMessage(e: Thrown): (m: Value)
    ensures Truthy(m)
    ensures Truthy(Detail(e)) ==> m == Detail(e)
    ensures !Truthy(Detail(e)) ==> m.Str?
  {
    if Truthy(Detail(e)) then Detail(e)
    else if e.code == Str("ECONNABORTED") then Str(UploadTimeoutText)
    else if Includes(e.message, "Network Error") then Str(CannotConnect)
    else Str("Failed to process CSV")
  }

  /** The message of a rejected non-2xx response mentions neither a network
      error nor a timeout. */
  lemma HttpMessageText(status: nat)
    ensures !Includes("Request failed with status code " + Decimal(status), "Network Error")
    ensures !Includes("Request failed with status code " + Decimal(status), "timeout")
  {
    var prefix := "Request failed with status code ";
    assert 'N' !in prefix && 'm' !in prefix;
    assert 'N' !in Decimal(status) && 'm' !in Decimal(status);
    assert 'N' !in prefix + Decimal(status) && 'm' !in prefix + Decimal(status);
    MissingCharNotIncluded(prefix + Decimal(status), "Network Error", 'N');
    MissingCharNotIncluded(prefix + Decimal(status), "timeout", 'm');
  }

  /** The message of a timed-out request mentions a timeout but no network error. */
  lemma TimeoutMessageText(timeoutMs: nat)
    ensures !Includes("timeout of " + Decimal(timeoutMs) + "ms exceeded", "Network Error")
    ensures Includes("timeout of " + Decimal(timeoutMs) + "ms exceeded", "timeout")
  {
    var slow := "timeout of " + Decimal(timeoutMs) + "ms exceeded";
    assert 'N' !in "timeout of " && 'N' !in "ms exceeded";
    assert 'N' !in Decimal(timeoutMs);
    assert 'N' !in slow;
    MissingCharNotIncluded(slow, "Network Error", 'N');
    assert slow[..7] == "timeout";
    IncludesPrefix(slow, "timeout");
  }

  /** What the single-recommendation handler shows for each way the request
      can fail: the server's detail when the error response carries a truthy
      one, otherwise "Server error"; the connection message when no response
      came; the timeout message when the 30 s timeout elapsed. */
  lemma SingleFailureMessage(f: Failure)
    ensures SingleErrorMessage(Rejection(f, SingleTimeoutMs)) ==
      match f
      case HttpError(_, data) =>
        if Truthy(BodyDetail(data)) then BodyDetail(data) else Str("Server error")
      case NetworkError => Str(CannotConnect)
      case Timeout => Str(SingleTimeoutText)
  {
    match f
    case HttpError(status, _) => HttpMessageText(status);
    case NetworkError => IncludesPrefix("Network Error", "Network Error");
    case Timeout => TimeoutMessageText(SingleTimeoutMs);
  }

  /** What the upload handler shows for each way the request can fail: the
      server's detail when the error response carries a truthy one, otherwise
      "Failed to process CSV"; the connection message when no response came;
      the upload timeout message when the 120 s timeout elapsed. */
  lemma UploadFailureMessage(f: Failure)
    ensures UploadErrorMessage(Rejection(f, BatchTimeoutMs)) ==
      match f
      case HttpError(_, data) =>
        if Truthy(BodyDetail(data)) then BodyDetail(data) else Str("Failed to process CSV")
      case NetworkError => Str(CannotConnect)
      case Timeout => Str(UploadTimeoutText)
  {
    match f
    case HttpError(status, _) => HttpMessageText(status);
    case NetworkError => IncludesPrefix("Network Error", "Network Error");
    case Timeout =>
  }

  /** What `handleTestSingle` throws for a 2xx body with a falsy `price_recommended`. */
  const InvalidSingleResponse := Thrown(None, Undefined, "Invalid response from server")

  /** What `onUpload` throws for a 2xx body whose `rows` is not an array. */
  const InvalidBatchResponse := Thrown(None, Undefined, "Invalid response format from server")

  lemma InvalidSingleChars()
    ensures 'N' !in "Invalid response from server" && 't' !in "Invalid response from server"
  {
  }

  /** The single handler's own "invalid response" error mentions neither a
      network error nor a timeout. */
  lemma InvalidSingleText()
    ensures !Includes(InvalidSingleResponse.message, "Network Error")
    ensures !Includes(InvalidSingleResponse.message, "timeout")
  {
    InvalidSingleChars();
    MissingCharNotIncluded(InvalidSingleResponse.message, "Network Error", 'N');
    MissingCharNotIncluded(InvalidSingleResponse.message, "timeout", 't');
  }

  /** A script error (no response, no code) whose message lacks a capital N
      is reported by the upload handler as "Failed to process CSV". */
  lemma ScriptErrorMessage(e: Thrown)
    requires e.response.None? && e.code.Undefined? && 'N' !in e.message
    ensures UploadErrorMessage(e) == Str("Failed to process CSV")
  {
    MissingCharNotIncluded(e.message, "Network Error", 'N');
  }

  lemma ReadErrorLacksN(base: Value, key: string)
    requires Nullish(base) && 'N' !in key
    ensures 'N' !in ReadError(base, key).message
  {
    assert 'N' !in "Cannot read properties of " && 'N' !in "null" && 'N' !in "undefined";
    assert 'N' !in " (reading '" && 'N' !in "')";
  }

  lemma InvalidBatchLacksN()
    ensures 'N' !in "Invalid response format from server"
  {
  }

  lemma ConvertErrorLacksN()
    ensures 'N' !in "Cannot convert object to primitive value"
  {
  }

  lemma ConvertErrorHeadLacksU()
    ensures 'u' !in "Cannot convert object to primitive val"
  {
  }

  /** The only `u` of the conversion error's message is followed by `e`. */
  lemma ConvertErrorLacksUT()
    ensures var s := ConvertError.message;
      forall j | 0 <= j < |s| - 1 :: !(s[j] == 'u' && s[j + 1] == 't')
  {
    var s := ConvertError.message;
    var head := "Cannot convert object to primitive val";
    assert s == head + "ue";
    ConvertErrorHeadLacksU();
    forall j | 0 <= j < |s| - 1
      ensures !(s[j] == 'u' && s[j + 1] == 't')
    {
      if j < |head| {
        assert s[j] == head[j];
      }
    }
  }

  /** The TypeError of printing an unconvertible value mentions neither a
      network error nor a timeout, so the single handler shows "Server error". */
  lemma ConvertErrorMessage()
    ensures SingleErrorMessage(ConvertError) == Str("Server error")
  {
    ConvertErrorLacksN();
    MissingCharNotIncluded(ConvertError.message, "Network Error", 'N');
    ConvertErrorLacksUT();
    assert "timeout"[5] == 'u' && "timeout"[6] == 't';
    MissingPairNotIncluded(ConvertError.message, "timeout", 5);
  }
}
