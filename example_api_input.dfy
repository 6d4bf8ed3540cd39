/** The example app's `APIInput`: a descriptor built by the base initializer, whose
    headers are then overwritten with the app's fixed JSON headers. Dafny has no class
    inheritance here, so the overriding initializer is a method that builds an
    `APIInputBase` and assigns the inherited field. */
module ExampleAPIInput {
  import opened Swift
  import opened HTTP
  import opened APIInputs

  /** The headers every `APIInput` sends, in this order. */
  function APIInputHeaders(): (h: HTTPHeaders)
    ensures |h| == 2
    ensures h[0] == HTTPHeader("Content-Type", "application/json; charset=utf-8")
    ensures h[1] == HTTPHeader("Accept", "application/json")
  {
    [ContentType("application/json; charset=utf-8"), Accept("application/json")]
  }

  /** `APIInput.init(urlString:method:parameters:encoder:)`: parameters and encoder default
      to `nil`, everything is forwarded to the base initializer, then the headers are set. */
  method NewAPIInput<P>(urlString: string, httpMethod: HTTPMethod,
                        parameters: Option<P> := None, encoder: Option<ParameterEncoder> := None)
    returns (input: APIInputBase<P>)
    ensures fresh(input)
    ensures input.urlString == urlString && input.httpMethod == httpMethod && input.parameters == parameters
    ensures input.encoder == SelectEncoder(httpMethod, encoder)
    ensures input.headers == Some(APIInputHeaders())
    ensures input.accessToken == None && !input.isUseCache && input.keyDecodingStrategy == ConvertFromSnakeCase
  {
    input := new APIInputBase(urlString, httpMethod, parameters, encoder);
    input.headers := Some(APIInputHeaders());
  }

  /** Left at its defaults, an `APIInput` for GET is form-encoded into the URL and one
      for any other method is sent as a JSON body, both with snake-case keys. */
  method NewAPIInputDefaultEncoder<P>(urlString: string, httpMethod: HTTPMethod, parameters: Option<P>)
    returns (e: ParameterEncoder)
    ensures e.URLEncodedForm? <==> httpMethod == get
    ensures (e.URLEncodedForm? || e.JSONBody?) && e.keyEncoding == ConvertToSnakeCase
  {
    var input := NewAPIInput(urlString, httpMethod, parameters);
    e := input.encoder;
  }

  /** Every `APIInput`'s summary ends with a headers section listing the fixed headers. */
  method APIInputDescription<P>(urlString: string, httpMethod: HTTPMethod, parameters: Option<P>,
                                showParameters: P -> string, showHeaders: HTTPHeaders -> string)
    returns (description: string)
    ensures var j := |FirstLine(httpMethod, urlString)| + |ParametersSection(parameters, showParameters)|;
      j + |headersMarker| <= |description|
        && description[j..] == headersMarker + showHeaders(APIInputHeaders())
    ensures FirstLine(httpMethod, urlString) <= description
  {
    var input := NewAPIInput(urlString, httpMethod, parameters);
    description := input.RequestDescription(showParameters, showHeaders);
    DescriptionSections(httpMethod, urlString, parameters, input.headers, showParameters, showHeaders);
  }
}
