/** The error taxonomy: the `APIError` protocol and its four conformers (two from the
    library, two from the example app), and the errors thrown through the pipeline.
    Descriptions are the fallback values of the localized-string lookups. */
module APIErrors {
  import opened Swift

  /** An error raised by code outside this model (Alamofire's `AFError`, a decoding
      error from `JSONDecoder`): the pipeline only carries it along; `text` is what
      Swift prints for it. */
  datatype ForeignError = ForeignError(text: string)

  /** What `NSLocalizedString(key, value:comment:)` gives when no translation is present:
      the value, or the key itself when the value is empty. */
  function LocalizedFallback(key: string, value: string): (s: string)
    ensures key != "" ==> s != ""
    ensures value != "" ==> s == value
    ensures value == "" ==> s == key
  {
    if value == "" then key else value
  }

  /** The conformers of `APIError`. */
  datatype APIError =
      /** `APIResponseDecodeError`: the bytes arrived but did not decode. */
    | ResponseDecodeError(error: ForeignError)
      /** `APIUnknownError`: a failure with at most a status code to tell about it. */
    | UnknownError(code: Option<int>)
      /** The example app's `APIExpiredTokenError`. */
    | ExpiredTokenError
      /** The example app's `APIResponseError`. */
    | ResponseError(code: Option<int>, message: string)
  {
    /** The protocol's `statusCode`: the conformers that store one report it, the
        others fall back to the protocol extension's `nil`. */
    function StatusCode(): (c: Option<int>)
      ensures (UnknownError? || ResponseError?) ==> c == code
      ensures c.Some? ==> UnknownError? || ResponseError?
    {
      match this
      case UnknownError(code) => code
      case ResponseError(code, _) => code
      case _ => None
    }

    /** `errorDescription`: every conformer has one, never empty except a response
        error's own empty message. */
    function ErrorDescription(): (d: Option<string>)
      ensures d.Some?
      ensures !ResponseError? ==> d.value != ""
      ensures ResponseDecodeError? ==> d.value == (if error.text == "" then "api.responseDecodeError" else error.text)
      ensures UnknownError? ==> d.value == OptionalIntDescription(code)
      ensures ExpiredTokenError? ==> d.value == "Access token is expired"
      ensures ResponseError? ==> d.value == message
    {
      match this
      case ResponseDecodeError(error) => Some(LocalizedFallback("api.responseDecodeError", error.text))
      case UnknownError(code) => Some(LocalizedFallback("api.unknownError", OptionalIntDescription(code)))
      case ExpiredTokenError => Some(LocalizedFallback("api.expiredTokenError", "Access token is expired"))
      case ResponseError(_, message) => Some(message)
    }
  }

  /** An error thrown through the pipeline: one of the taxonomy, or one raised by a collaborator. */
  datatype Error = API(api: APIError) | Foreign(foreign: ForeignError)

  /** Two unknown errors with the same description carry the same status code:
      the fallback text never loses the code, nor its absence. */
  lemma UnknownErrorDescriptionIdentifiesCode(c1: Option<int>, c2: Option<int>)
    requires UnknownError(c1).ErrorDescription() == UnknownError(c2).ErrorDescription()
    ensures c1 == c2
  {
    OptionalIntDescriptionInjective(c1, c2);
  }

  /** An unknown error built without a status code describes itself as `nil`. */
  lemma UnknownErrorWithoutCode()
    ensures UnknownError(None).StatusCode() == None
    ensures UnknownError(None).ErrorDescription() == Some("nil")
  {
  }

  /** Wrapping a decode failure keeps it, and adds no status code; the description is
      the wrapped error's text, or the string key when that text is empty. */
  lemma ResponseDecodeErrorKeepsCause(e: ForeignError)
    ensures ResponseDecodeError(e).error == e
    ensures ResponseDecodeError(e).StatusCode() == None
    ensures e.text != "" ==> ResponseDecodeError(e).ErrorDescription() == Some(e.text)
    ensures e.text == "" ==> ResponseDecodeError(e).ErrorDescription() == Some("api.responseDecodeError")
  {
  }

  /** The example app's expired-token error has no status code and a fixed description. */
  lemma ExpiredTokenErrorDefaults()
    ensures ExpiredTokenError.StatusCode() == None
    ensures ExpiredTokenError.ErrorDescription() == Some("Access token is expired")
  {
  }

  /** The example app's response error reports the code it was built with and its message as its description. */
  lemma ResponseErrorKeepsFields(code: Option<int>, message: string)
    ensures ResponseError(code, message).StatusCode() == code
    ensures ResponseError(code, message).ErrorDescription() == Some(message)
  {
  }
}
