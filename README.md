# SwiftUIBase API pipeline, modelled in Dafny

This project models the networking core of SwiftUIBase. That core is a small request
pipeline built on Alamofire, plus the request descriptor, the error types and the
log-option constants that go with it.

- **Request descriptor** (`APIInputs`). `APIInputBase` is a Dafny class with the same public
  fields as the Swift class. `method` is a Dafny keyword, so that field is named
  `httpMethod`. The constructor chooses the encoder: the one passed in, or
  else the URL-form encoder for GET and the JSON-body encoder for every other method.
  Both default encoders write keys in snake case. `RequestDescription` builds the
  summary with the same conditional appends as the source. The spec function
  `Description` comes with lemmas about how the summary is laid out.
- **Example descriptor** (`ExampleAPIInput`, `ExampleRepos`). The subclass `APIInput`
  first runs the base initializer and then overwrites `headers`. Here that is a factory
  method that builds an `APIInputBase` and assigns the field. The repository-search
  descriptor is a concrete instance: it also switches `keyDecodingStrategy` to
  `useDefaultKeys`.
- **Pipeline** (`APIService`). This part consists of pure functions:
  - `ProcessMap` turns one transport outcome into exactly one result.
  - `RequestData` passes any failure to the `handleRequestError` hook.
  - `Request` decodes only the bytes that `RequestData` produced.
  - `DecodeResponse` wraps a decoder failure as `APIResponseDecodeError`.

  The two `open` hooks are function parameters, and their default bodies are
  `DefaultHandleRequestError` and `DefaultHandleResponseError`. The transport (Alamofire's
  session) is a parameter too. It maps the request parts that `requestData` forwards to a
  `DataResponse`. The JSON decoder is an uninterpreted parameter from bytes and key
  strategy to a value or an error.
- **Errors** (`APIErrors`). This is one closed datatype covering the `APIError` protocol's
  four conformers: `APIResponseDecodeError`, `APIUnknownError` and, from the example app,
  `APIExpiredTokenError` and `APIResponseError`. It has member functions for the protocol's
  `statusCode` (default `nil`) and for `errorDescription`, which gives the fallback text
  of each localized string. The unknown error's text is Swift's `String(describing:)` of
  an `Int?`, modelled in `Swift.OptionalIntDescription`, and it is proved to identify
  the status code.
- **Log options** (`APILogOptions`). The six options are 64-bit patterns, and the three
  presets are lists. Lemmas cover single bits, disjointness, the unused bit `1 << 1`, and
  how the presets relate, both as lists and as combined option sets.
  `LogOption(r)` stands for `init(rawValue: r)` and keeps `r` as its `rawValue`.

The decode-strategy field is declared as `keyStrategyForDecodeResponse`
(Sources/SwiftUIBase/Data/APIService/APIInputBase.swift:17). The pipeline and the example
read and write it as `keyDecodingStrategy`. It is one field here, named `keyDecodingStrategy`.

Two behaviours of the default hooks shape the error results:
- The default `handleRequestError` rethrows the transport error unchanged. No fixed
  "unable to connect" message is substituted
  (Sources/SwiftUIBase/Data/APIService/APIServiceBase.swift:140-145).
- A non-2xx status yields whatever `handleResponseError` returns. By default that is
  `APIUnknownError` carrying the status code
  (Sources/SwiftUIBase/Data/APIService/APIServiceBase.swift:152-157).

## Model

| member | source | states |
|---|---|---|
| `APIService.ProcessMap` | Sources/SwiftUIBase/Data/APIService/APIServiceBase.swift:76-107 | It succeeds exactly when the exchange delivered bytes with an HTTP response whose status is in 200..<300, and then it returns those bytes unchanged. A transport failure is the same AFError. Bytes without a response give an unknown error with no code. Any other status gives the response hook's error for that response and its bytes. |
| `APIService.SuccessRangeBoundaries` | Sources/SwiftUIBase/Data/APIService/APIServiceBase.swift:88-89 | 200 and 299 are in the success range; 199 and 300 are not. |
| `APIService.DefaultHandleResponseError` | Sources/SwiftUIBase/Data/APIService/APIServiceBase.swift:152-157 | The default response hook gives an unknown error whose status code is the response's own, or nil when there is no response. |
| `APIService.DefaultErrorStatusIsUnknownError` | Sources/SwiftUIBase/Data/APIService/APIServiceBase.swift:96-99 | With the default hook, a status outside the success range fails with an unknown error carrying exactly that status. |
| `APIService.DefaultHandleRequestError` | Sources/SwiftUIBase/Data/APIService/APIServiceBase.swift:140-145 | The default request hook rethrows the error it was given and recovers nothing. |
| `APIService.RequestData` | Sources/SwiftUIBase/Data/APIService/APIServiceBase.swift:51-69 | The bytes from processMap pass through; every error processMap throws goes to the request hook, whose result is the outcome. |
| `APIService.TransportRequestOf` | Sources/SwiftUIBase/Data/APIService/APIServiceBase.swift:54-60 | The session is sent the descriptor's URL, method, parameters, encoder and headers, each unchanged. |
| `APIService.DefaultRequestDependsOnlyOnForwardedFields` | Sources/SwiftUIBase/Data/APIService/APIServiceBase.swift:33-69 | With the default hooks, two descriptors that send the same request parts and share the key strategy get the same result, so accessToken and isUseCache never affect the outcome. |
| `APIService.DefaultRequestDataIsProcessMap` | Sources/SwiftUIBase/Data/APIService/APIServiceBase.swift:62-67 | With the default hooks, requestData's outcome is processMap's outcome for the session's response. |
| `APIService.DecodeResponse` | Sources/SwiftUIBase/Data/APIService/APIServiceBase.swift:114-131 | The result is a success exactly when the decoder succeeds on these bytes with this key strategy, and it holds the decoded value. A failure is APIResponseDecodeError wrapping the decoder's own error. |
| `APIService.Request` | Sources/SwiftUIBase/Data/APIService/APIServiceBase.swift:33-43 | A failure of requestData propagates unchanged. Bytes from it are decoded with the descriptor's keyDecodingStrategy. |
| `APIService.RequestOnSuccessStatus` | Sources/SwiftUIBase/Data/APIService/APIServiceBase.swift:38-41 | For a 2xx response, whatever the hooks, the request returns the decoded value, or the decode failure wrapped as APIResponseDecodeError. |
| `APIService.DefaultRequestOnErrorStatus` | Sources/SwiftUIBase/Data/APIService/APIServiceBase.swift:96-106 | With the default hooks, a non-2xx status fails with an unknown error carrying that status. This holds for every body and every decoder, so it is never a decode error. |
| `APIService.DefaultRequestWithoutResponse` | Sources/SwiftUIBase/Data/APIService/APIServiceBase.swift:83-85 | With the default hooks, bytes without an HTTP response fail with an unknown error with a nil code. |
| `APIService.DefaultRequestOnTransportFailure` | Sources/SwiftUIBase/Data/APIService/APIServiceBase.swift:102-106 | With the default hooks, a transport failure comes out as the same AFError, whatever response came with it. |
| `APIService.RequestIgnoresDecoderOnFailure` | Sources/SwiftUIBase/Data/APIService/APIServiceBase.swift:38-41 | When requestData fails, the request fails with that error, and the result is the same for any two decoders, so decoding is never attempted. |
| `APIService.DecodeErrorOnlyAfterSuccessStatus` | Sources/SwiftUIBase/Data/APIService/APIServiceBase.swift:114-130 | With the default hooks, a decode error arises only for a 2xx response, and it wraps what the decoder reported for those bytes. |
| `APIHelper.EncodeParameterForURL` | Sources/SwiftUIBase/Data/APIService/APIHelperBase.swift:12-16 | The factory gives the URL-form encoder with the key encoding it was given. |
| `APIHelper.EncodeParameterForJSON` | Sources/SwiftUIBase/Data/APIService/APIHelperBase.swift:18-24 | The factory gives the JSON-body encoder with the key encoding it was given. |
| `APIHelper.DefaultFactoriesUseSnakeCase` | Sources/SwiftUIBase/Data/APIService/APIHelperBase.swift:12-24 | Without arguments both factories use snake-case keys, and the two encoders differ. |
| `APIInputs.SelectEncoder` | Sources/SwiftUIBase/Data/APIService/APIInputBase.swift:44-50 | An encoder passed in is kept. Without one, the encoder is URL-form exactly when the method is GET, otherwise JSON body, and either way it uses snake-case keys. |
| `APIInputs.APIInputBase.constructor` | Sources/SwiftUIBase/Data/APIService/APIInputBase.swift:34-51 | urlString, method and parameters are stored as given, and the encoder is the selected one. headers and accessToken are nil, isUseCache is false, and the key strategy is convertFromSnakeCase. |
| `APIInputs.APIInputBase.RequestDescription` | Sources/SwiftUIBase/Data/APIService/APIInputBase.swift:21-32 | The summary of the current fields is the first line, then the parameters section if there are parameters, then the headers section if there are headers. |
| `APIInputs.DescriptionBeginsWithFirstLine` | Sources/SwiftUIBase/Data/APIService/APIInputBase.swift:22 | Every summary starts with the globe, the method's raw value and the URL. |
| `APIInputs.DescriptionSections` | Sources/SwiftUIBase/Data/APIService/APIInputBase.swift:24-29 | Right after the first line, the parameters marker appears exactly when parameters are non-nil, followed by their text. After that section, the headers marker appears exactly when headers are non-nil, and the headers' text ends the summary. |
| `APIInputs.ParametersBeforeHeaders` | Sources/SwiftUIBase/Data/APIService/APIInputBase.swift:24-29 | When both are present, the parameters marker stands before the headers marker. |
| `APIInputs.DescriptionBareIff` | Sources/SwiftUIBase/Data/APIService/APIInputBase.swift:22-31 | The summary is exactly the first line if and only if there are neither parameters nor headers. |
| `ExampleAPIInput.APIInputHeaders` | Example/SwiftUIBase/Data/API/Service/APIInput.swift:25-28 | The fixed headers are Content-Type "application/json; charset=utf-8", then Accept "application/json", and nothing else. |
| `ExampleAPIInput.NewAPIInput` | Example/SwiftUIBase/Data/API/Service/APIInput.swift:12-29 | URL, method, parameters and encoder are forwarded to the base initializer, with parameters and encoder defaulting to nil. Afterwards the headers are the fixed list, and the other defaults are those of the base initializer. |
| `ExampleAPIInput.NewAPIInputDefaultEncoder` | Example/SwiftUIBase/Data/API/Service/APIInput.swift:15-23 | With the defaults, the encoder is URL-form exactly for GET, uses snake-case keys, and is chosen by the base class. |
| `ExampleAPIInput.APIInputDescription` | Example/SwiftUIBase/Data/API/Service/APIInput.swift:25-28 | Every APIInput's summary starts with the first line and ends with a headers section for the fixed headers. |
| `ExampleRepos.NewGetReposInput` | Example/SwiftUIBase/Data/API/API+Repos.swift:32-46 | The repository search sends a GET to the search URL with query "language:swift" and the page. It is form-encoded with snake-case keys and carries the fixed headers, and its responses are decoded with keys as declared. It has no access token and does not use the cache. |
| `ExampleRepos.GetRepos` | Example/SwiftUIBase/Data/API/API+Repos.swift:13-15 | A 2xx answer is decoded with useDefaultKeys. Any other answer fails with processMap's error before decoding. |
| `APIErrors.APIError.StatusCode` | Sources/SwiftUIBase/Data/APIService/APIErrorBase.swift:10-18 | Conformers that store a status code report it. Every other conformer reports nil, the protocol extension's default. |
| `APIErrors.APIError.ErrorDescription` | Sources/SwiftUIBase/Data/APIService/APIErrorBase.swift:27-49 | Every error has a description, and only a response error's own empty message can make it empty. A decode error gives the wrapped error's text, or the string key "api.responseDecodeError" when that text is empty; an unknown error the printed optional code, an expired token its fixed text, and a response error its message. |
| `APIErrors.ResponseDecodeErrorKeepsCause` | Sources/SwiftUIBase/Data/APIService/APIErrorBase.swift:20-33 | A decode error keeps the wrapped error and has a nil status code. It is described by the wrapped error's text, or by the key "api.responseDecodeError" when that text is empty. |
| `APIErrors.UnknownErrorWithoutCode` | Sources/SwiftUIBase/Data/APIService/APIErrorBase.swift:36-49 | An unknown error built with nil reports nil and is described as "nil". |
| `APIErrors.UnknownErrorDescriptionIdentifiesCode` | Sources/SwiftUIBase/Data/APIService/APIErrorBase.swift:43-49 | Two unknown errors with the same description carry the same status code, or both carry none. |
| `Swift.OptionalIntDescription` | Sources/SwiftUIBase/Data/APIService/APIErrorBase.swift:46 | Swift's text for an Int? is "nil" exactly when the value is absent. |
| `Swift.OptionalIntDescriptionInjective` | Sources/SwiftUIBase/Data/APIService/APIErrorBase.swift:46 | Distinct Int? values never print alike. |
| `Swift.NatDigitsInjective` | Sources/SwiftUIBase/Data/APIService/APIErrorBase.swift:46 | Distinct naturals have distinct decimal digit strings. |
| `APIErrors.ExpiredTokenErrorDefaults` | Example/SwiftUIBase/Data/API/Service/APIError.swift:11-19 | The expired-token error reports a nil status code through the protocol default. Its description is "Access token is expired". |
| `APIErrors.ResponseErrorKeepsFields` | Example/SwiftUIBase/Data/API/Service/APIError.swift:21-28 | A response error reports the status code it was built with, and its description is exactly its message. |
| `APILogOptions.NamedOptionsAreSingleBits` | Sources/SwiftUIBase/Data/APIService/APILogOptionBase.swift:17-22 | Each of the six named options has exactly one bit set. |
| `APILogOptions.NamedOptionsAreDisjoint` | Sources/SwiftUIBase/Data/APIService/APILogOptionBase.swift:17-22 | Distinct named options share no bit. |
| `APILogOptions.BitOneIsUnused` | Sources/SwiftUIBase/Data/APIService/APILogOptionBase.swift:17-22 | No named option uses bit 1 << 1. |
| `APILogOptions.AllListsEveryNamedOptionOnce` | Sources/SwiftUIBase/Data/APIService/APILogOptionBase.swift:33-40 | all holds exactly the six named options, with no repeats. |
| `APILogOptions.DefaultIsAllButBodyAndCache` | Sources/SwiftUIBase/Data/APIService/APILogOptionBase.swift:24-40 | default is exactly all without responseJSON and cache, so every member of default is in all. |
| `APILogOptions.PresetsAsOptionSets` | Sources/SwiftUIBase/Data/APIService/APILogOptionBase.swift:24-40 | As option sets, default lies within all and contains neither responseJSON nor cache, none is empty, and all contains every named option. |
| `APILogOptions.Union` | Sources/SwiftUIBase/Data/APIService/APILogOptionBase.swift:10 | The union of two option sets contains both of them. |
| `APILogOptions.CombinedContainsEach` | Sources/SwiftUIBase/Data/APIService/APILogOptionBase.swift:10 | The option set combined from a list contains every listed option. |
| `APILogOptions.CombinedAddsNothing` | Sources/SwiftUIBase/Data/APIService/APILogOptionBase.swift:10 | The combined set shares no bit with an option that shares none with any listed option. |

## Left out

- Alamofire's session and the network: `Session`, the 60-second timeouts in
  `init()`, and `publishData`. The transport is a function parameter from the
  forwarded request parts to a `DataResponse`. One call is one exchange.
- Combine: a publisher can emit zero or many values, or be cancelled. Each stage here
  is a single value or a single error, so the model does not capture this. A
  `handleRequestError` override that recovers is modelled as returning one `Bytes` value.
- The hooks receive no heap: a `handleRequestError` override is a total function of the
  error and the descriptor reference. It cannot read the descriptor's fields.
- JSON encoding, JSON decoding and snake-case key conversion are Foundation and
  Alamofire code that is not part of this model. The decoder is uninterpreted, the
  encoders are tags, and no encode/decode round trip is claimed.
- The textual form of the parameters, and Alamofire's `HTTPHeaders.description`, are
  not part of this model. They enter `RequestDescription` as parameters.
- `HTTPHeaders` merges headers whose names differ only in case. Here headers are an
  ordered list; the example's two headers have distinct names.
- Every `print`, including the best-effort `JSONSerialization` preview in `processMap`.
  None of them affects a result. `APILogOptionBase` is read nowhere in the pipeline, so
  no logging is gated by it.
- `NSLocalizedString` lookups: no translation table is modelled. The text is the
  fallback value, or the key when that value is empty.
- `APIResponseDecodeError.init` accepts any Swift error. Here it wraps the decoder's
  error, the only kind the pipeline gives it.
- Swift's `Int` width: status codes and the `ReposParameters` integers are unbounded.
  Log options are 64-bit patterns, so their bit operations are exact.
- `request`, `requestData`, `processMap` and `decodeResponse` are `open` as well as the
  two hooks. Only their base bodies are modelled, so `APIService.RequestOnSuccessStatus`
  and the other pipeline lemmas hold only for subclasses that override no more than
  the two hooks.
- `ParameterEncoder` is an open protocol. Only Alamofire's two encoders are modelled
  with their key encoding; every other encoder is `OtherEncoder`, known by a name.
- Key encodings and `KeyDecodingStrategy` have more cases in Foundation and Alamofire
  (`.custom`, and the other case conversions). Only the two that this core uses are
  modelled on each side: keys as declared, and snake case.
- The app's own `APIService` subclass and its `shared` instance are not part of this model.
  `ExampleRepos.GetRepos` runs with the default hooks.
- The Combine helpers, async bridging, UI code, endpoint tables other than the
  repository search, and `Package.swift` are outside the pipeline.
