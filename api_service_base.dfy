/** APIServiceBase: the request pipeline. It classifies one transport outcome
    (`processMap`), lets the request-error hook see any failure (`requestData`), and
    decodes only the bytes of a successful response (`request`, `decodeResponse`).
    The transport, the JSON decoder and the two overridable hooks are parameters;
    the logging prints affect no result and are left out. */
module APIService {
  import opened Swift
  import opened HTTP
  import opened APIErrors
  import opened APIInputs

  /** The part of Foundation's `HTTPURLResponse` the pipeline reads. */
  datatype HTTPURLResponse = HTTPURLResponse(statusCode: int, url: Option<string>)

  /** The result of the exchange: bytes, or Alamofire's error. */
  datatype DataResult = DataSuccess(data: Bytes) | DataFailure(error: ForeignError)

  /** Alamofire's `DataResponse<Data, AFError>`: the HTTP response, if any, and the result. */
  datatype DataResponse = DataResponse(response: Option<HTTPURLResponse>, result: DataResult)

  /** What `requestData` hands the session: the descriptor's URL, method, parameters, encoder and headers. */
  datatype TransportRequest<P> = TransportRequest(
    urlString: string, httpMethod: HTTPMethod, parameters: Option<P>,
    encoder: ParameterEncoder, headers: Option<HTTPHeaders>)

  /** `case 200 ..< 300`. */
  predicate IsSuccessStatus(statusCode: int)
  {
    200 <= statusCode < 300
  }

  /** `dataResponse.response?.statusCode` */
  function ResponseStatusCode(dataResponse: DataResponse): Option<int>
  {
    if dataResponse.response.Some? then Some(dataResponse.response.value.statusCode) else None
  }

  /** The default `handleResponseError`: an unknown error with the response's status code. */
  function DefaultHandleResponseError(dataResponse: DataResponse, data: Option<Bytes>): (e: Error)
    ensures e.API? && e.api.UnknownError?
    ensures e.api.StatusCode() == ResponseStatusCode(dataResponse)
  {
    API(UnknownError(ResponseStatusCode(dataResponse)))
  }

  /** The default `handleRequestError`: rethrow the error, recover nothing. */
  function DefaultHandleRequestError<P>(error: Error, input: APIInputBase<P>): (r: Result<Bytes, Error>)
    ensures r.Failure? && r.error == error
  {
    Failure(error)
  }

  /** `processMap`: one transport outcome to exactly one result. */
  function ProcessMap(dataResponse: DataResponse, handleResponseError: (DataResponse, Option<Bytes>) -> Error)
    : (r: Result<Bytes, Error>)
    ensures r.Success? <==> dataResponse.result.DataSuccess? && dataResponse.response.Some?
                              && IsSuccessStatus(dataResponse.response.value.statusCode)
    ensures r.Success? ==> r.value == dataResponse.result.data
    ensures dataResponse.result.DataFailure? ==> r == Failure(Foreign(dataResponse.result.error))
    ensures (dataResponse.result.DataSuccess? && dataResponse.response.None?)
              ==> r == Failure(API(UnknownError(None)))
    ensures (dataResponse.result.DataSuccess? && dataResponse.response.Some?
             && !IsSuccessStatus(dataResponse.response.value.statusCode))
              ==> r == Failure(handleResponseError(dataResponse, Some(dataResponse.result.data)))
  {
    match dataResponse.result
    case DataSuccess(data) =>
      if dataResponse.response.None? then Failure(API(UnknownError(None)))
      else
        var statusCode := dataResponse.response.value.statusCode;
        if 200 <= statusCode < 300 then Success(data)
        else Failure(handleResponseError(dataResponse, Some(data)))
    case DataFailure(aFError) => Failure(Foreign(aFError))
  }

  /** The request `requestData` hands the session for this descriptor. */
  function TransportRequestOf<P>(input: APIInputBase<P>): (t: TransportRequest<P>)
    reads input
    ensures t.urlString == input.urlString && t.httpMethod == input.httpMethod
    ensures t.parameters == input.parameters && t.encoder == input.encoder && t.headers == input.headers
  {
    TransportRequest(input.urlString, input.httpMethod, input.parameters, input.encoder, input.headers)
  }

  /** `requestData`: one exchange, classified by `processMap`; whatever it throws goes
      to `handleRequestError`, which may rethrow it or recover with bytes. */
  function RequestData<P>(input: APIInputBase<P>,
                          session: TransportRequest<P> -> DataResponse,
                          handleRequestError: (Error, APIInputBase<P>) -> Result<Bytes, Error>,
                          handleResponseError: (DataResponse, Option<Bytes>) -> Error)
    : (r: Result<Bytes, Error>)
    reads input
    ensures var processed := ProcessMap(session(TransportRequestOf(input)), handleResponseError);
      && (processed.Success? ==> r == processed)
      && (processed.Failure? ==> r == handleRequestError(processed.error, input))
  {
    var processed := ProcessMap(session(TransportRequestOf(input)), handleResponseError);
    match processed
    case Success(data) => Success(data)
    case Failure(error) => handleRequestError(error, input)
  }

  /** `decodeResponse`: decode with the given key strategy; a decode failure becomes
      `APIResponseDecodeError` around the decoder's error. */
  function DecodeResponse<T>(decode: (Bytes, KeyDecodingStrategy) -> Result<T, ForeignError>,
                             data: Bytes, keyDecodingStrategy: KeyDecodingStrategy)
    : (r: Result<T, Error>)
    ensures r.Success? <==> decode(data, keyDecodingStrategy).Success?
    ensures r.Success? ==> r.value == decode(data, keyDecodingStrategy).value
    ensures r.Failure? ==> r.error == API(ResponseDecodeError(decode(data, keyDecodingStrategy).error))
  {
    match decode(data, keyDecodingStrategy)
    case Success(items) => Success(items)
    case Failure(error) => Failure(API(ResponseDecodeError(error)))
  }

  /** `request`: `requestData`, then decoding with the descriptor's key strategy, only
      when `requestData` produced bytes. */
  function Request<P, T>(input: APIInputBase<P>,
                         session: TransportRequest<P> -> DataResponse,
                         decode: (Bytes, KeyDecodingStrategy) -> Result<T, ForeignError>,
                         handleRequestError: (Error, APIInputBase<P>) -> Result<Bytes, Error>,
                         handleResponseError: (DataResponse, Option<Bytes>) -> Error)
    : (r: Result<T, Error>)
    reads input
    ensures var data := RequestData(input, session, handleRequestError, handleResponseError);
      && (data.Failure? ==> r == Failure(data.error))
      && (data.Success? ==> r == DecodeResponse(decode, data.value, input.keyDecodingStrategy))
  {
    match RequestData(input, session, handleRequestError, handleResponseError)
    case Success(data) => DecodeResponse(decode, data, input.keyDecodingStrategy)
    case Failure(error) => Failure(error)
  }

  /** `request` with both hooks left at their defaults, as the library ships them. */
  function DefaultRequest<P, T>(input: APIInputBase<P>,
                                session: TransportRequest<P> -> DataResponse,
                                decode: (Bytes, KeyDecodingStrategy) -> Result<T, ForeignError>)
    : Result<T, Error>
    reads input
  {
    Request(input, session, decode, DefaultHandleRequestError, DefaultHandleResponseError)
  }

  // Properties of the pipeline

  /** The edges of the success range. */
  lemma SuccessRangeBoundaries()
    ensures IsSuccessStatus(200) && IsSuccessStatus(299)
    ensures !IsSuccessStatus(199) && !IsSuccessStatus(300)
  {
  }

  /** With the default hooks, `requestData` is `processMap` with the default response
      hook: every failure comes out exactly as `processMap` threw it. */
  lemma DefaultRequestDataIsProcessMap<P>(input: APIInputBase<P>, session: TransportRequest<P> -> DataResponse)
    ensures RequestData(input, session, DefaultHandleRequestError, DefaultHandleResponseError)
              == ProcessMap(session(TransportRequestOf(input)), DefaultHandleResponseError)
  {
  }

  /** A status outside the success range fails with an unknown error carrying exactly that code. */
  lemma DefaultErrorStatusIsUnknownError(dataResponse: DataResponse)
    requires dataResponse.result.DataSuccess? && dataResponse.response.Some?
    requires !IsSuccessStatus(dataResponse.response.value.statusCode)
    ensures ProcessMap(dataResponse, DefaultHandleResponseError)
              == Failure(API(UnknownError(Some(dataResponse.response.value.statusCode))))
  {
  }

  /** With the default hooks, the outcome depends only on what the session is sent and
      on the key strategy: `accessToken` and `isUseCache` never affect it. */
  lemma DefaultRequestDependsOnlyOnForwardedFields<P, T>(a: APIInputBase<P>, b: APIInputBase<P>,
                                                        session: TransportRequest<P> -> DataResponse,
                                                        decode: (Bytes, KeyDecodingStrategy) -> Result<T, ForeignError>)
    requires TransportRequestOf(a) == TransportRequestOf(b)
    requires a.keyDecodingStrategy == b.keyDecodingStrategy
    ensures DefaultRequest(a, session, decode) == DefaultRequest(b, session, decode)
  {
  }

  /** A 2xx response is decoded with the descriptor's key strategy: the decoded value,
      or an `APIResponseDecodeError` wrapping the decoder's own error. */
  lemma RequestOnSuccessStatus<P, T>(input: APIInputBase<P>,
                                     session: TransportRequest<P> -> DataResponse,
                                     decode: (Bytes, KeyDecodingStrategy) -> Result<T, ForeignError>,
                                     handleRequestError: (Error, APIInputBase<P>) -> Result<Bytes, Error>,
                                     handleResponseError: (DataResponse, Option<Bytes>) -> Error)
    requires var resp := session(TransportRequestOf(input));
      resp.result.DataSuccess? && resp.response.Some? && IsSuccessStatus(resp.response.value.statusCode)
    ensures var data := session(TransportRequestOf(input)).result.data;
      var r := Request(input, session, decode, handleRequestError, handleResponseError);
      match decode(data, input.keyDecodingStrategy)
      case Success(v) => r == Success(v)
      case Failure(e) => r == Failure(API(ResponseDecodeError(e)))
  {
  }

  /** With the default hooks, a status outside the success range fails with that status
      code, whatever the body and whatever the decoder: it never becomes a decode error. */
  lemma DefaultRequestOnErrorStatus<P, T>(input: APIInputBase<P>,
                                          session: TransportRequest<P> -> DataResponse,
                                          decode: (Bytes, KeyDecodingStrategy) -> Result<T, ForeignError>)
    requires var resp := session(TransportRequestOf(input));
      resp.result.DataSuccess? && resp.response.Some? && !IsSuccessStatus(resp.response.value.statusCode)
    ensures DefaultRequest(input, session, decode)
              == Failure(API(UnknownError(Some(session(TransportRequestOf(input)).response.value.statusCode))))
  {
  }

  /** With the default hooks, bytes without an HTTP response fail with an unknown error without a code. */
  lemma DefaultRequestWithoutResponse<P, T>(input: APIInputBase<P>,
                                            session: TransportRequest<P> -> DataResponse,
                                            decode: (Bytes, KeyDecodingStrategy) -> Result<T, ForeignError>)
    requires var resp := session(TransportRequestOf(input));
      resp.result.DataSuccess? && resp.response.None?
    ensures DefaultRequest(input, session, decode) == Failure(API(UnknownError(None)))
  {
  }

  /** With the default hooks, a transport failure comes out as the same error, whatever
      status the response might carry. */
  lemma DefaultRequestOnTransportFailure<P, T>(input: APIInputBase<P>,
                                               session: TransportRequest<P> -> DataResponse,
                                               decode: (Bytes, KeyDecodingStrategy) -> Result<T, ForeignError>)
    requires session(TransportRequestOf(input)).result.DataFailure?
    ensures DefaultRequest(input, session, decode)
              == Failure(Foreign(session(TransportRequestOf(input)).result.error))
  {
  }

  /** Decoding is never attempted after `requestData` fails: the decoder does not matter. */
  lemma RequestIgnoresDecoderOnFailure<P, T>(input: APIInputBase<P>,
                                             session: TransportRequest<P> -> DataResponse,
                                             decode1: (Bytes, KeyDecodingStrategy) -> Result<T, ForeignError>,
                                             decode2: (Bytes, KeyDecodingStrategy) -> Result<T, ForeignError>,
                                             handleRequestError: (Error, APIInputBase<P>) -> Result<Bytes, Error>,
                                             handleResponseError: (DataResponse, Option<Bytes>) -> Error)
    requires RequestData(input, session, handleRequestError, handleResponseError).Failure?
    ensures Request(input, session, decode1, handleRequestError, handleResponseError)
              == Request(input, session, decode2, handleRequestError, handleResponseError)
    ensures Request(input, session, decode1, handleRequestError, handleResponseError)
              == Failure(RequestData(input, session, handleRequestError, handleResponseError).error)
  {
  }

  /** With the default hooks, a decode error only ever comes from decoding the bytes of a
      2xx response, and it wraps what the decoder reported for them. */
  lemma DecodeErrorOnlyAfterSuccessStatus<P, T>(input: APIInputBase<P>,
                                                session: TransportRequest<P> -> DataResponse,
                                                decode: (Bytes, KeyDecodingStrategy) -> Result<T, ForeignError>)
    requires var r := DefaultRequest(input, session, decode); r.Failure? && r.error.API? && r.error.api.ResponseDecodeError?
    ensures var resp := session(TransportRequestOf(input));
      resp.result.DataSuccess? && resp.response.Some? && IsSuccessStatus(resp.response.value.statusCode)
      && decode(resp.result.data, input.keyDecodingStrategy) == Failure(DefaultRequest(input, session, decode).error.api.error)
  {
  }
}
