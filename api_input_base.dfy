/** APIInputBase: the request descriptor, a class whose public fields subclasses may
    overwrite after construction, with its encoder choice and its printed summary. */
module APIInputs {
  import opened Swift
  import opened HTTP
  import opened APIHelper

  /** The encoder a descriptor ends up with: the one passed in, or by default the
      URL-form encoder for GET and the JSON body encoder for every other method. */
  function SelectEncoder(httpMethod: HTTPMethod, encoder: Option<ParameterEncoder>): (e: ParameterEncoder)
    ensures encoder.Some? ==> e == encoder.value
    ensures encoder.None? ==> (e.URLEncodedForm? <==> httpMethod == get)
    ensures encoder.None? ==> (e.URLEncodedForm? || e.JSONBody?) && e.keyEncoding == ConvertToSnakeCase
  {
    if encoder.Some? then encoder.value
    else if httpMethod == get then EncodeParameterForURL()
    else EncodeParameterForJSON()
  }

  const parametersMarker := "\nPARAMETERS: "
  const headersMarker := "\nHEADERS:\n"

  /** The first line of every summary: globe, method name, URL. */
  function FirstLine(httpMethod: HTTPMethod, urlString: string): string
  {
    "\U{1F30E} " + httpMethod.rawValue + " " + urlString
  }

  function ParametersSection<P>(parameters: Option<P>, showParameters: P -> string): string
  {
    if parameters.Some? then parametersMarker + showParameters(parameters.value) else ""
  }

  function HeadersSection(headers: Option<HTTPHeaders>, showHeaders: HTTPHeaders -> string): string
  {
    if headers.Some? then headersMarker + showHeaders(headers.value) else ""
  }

  /** `requestDescription` of a descriptor with these fields. `showParameters` and
      `showHeaders` are the texts Swift prints for the parameters and for Alamofire's headers. */
  function Description<P>(httpMethod: HTTPMethod, urlString: string, parameters: Option<P>,
                          headers: Option<HTTPHeaders>,
                          showParameters: P -> string, showHeaders: HTTPHeaders -> string): string
  {
    FirstLine(httpMethod, urlString) + ParametersSection(parameters, showParameters)
      + HeadersSection(headers, showHeaders)
  }

  class APIInputBase<P> {
    var headers: Option<HTTPHeaders>
    var urlString: string
    var httpMethod: HTTPMethod
    var encoder: ParameterEncoder
    var parameters: Option<P>
    /** Declared as `keyStrategyForDecodeResponse` and used as `keyDecodingStrategy`; one field here. */
    var keyDecodingStrategy: KeyDecodingStrategy
    var accessToken: Option<string>
    var isUseCache: bool

    constructor (urlString: string, httpMethod: HTTPMethod, parameters: Option<P>, encoder: Option<ParameterEncoder>)
      ensures this.urlString == urlString && this.httpMethod == httpMethod && this.parameters == parameters
      ensures this.encoder == SelectEncoder(httpMethod, encoder)
      ensures headers == None && accessToken == None && !isUseCache
      ensures keyDecodingStrategy == ConvertFromSnakeCase
    {
      this.headers := None;
      this.keyDecodingStrategy := ConvertFromSnakeCase;
      this.accessToken := None;
      this.isUseCache := false;
      this.urlString := urlString;
      this.parameters := parameters;
      this.httpMethod := httpMethod;
      this.encoder := SelectEncoder(httpMethod, encoder);
    }

    /** `requestDescription`: the first line, then a parameters section when there are
        parameters, then a headers section when there are headers. */
    method RequestDescription(showParameters: P -> string, showHeaders: HTTPHeaders -> string)
      returns (description: string)
      ensures description == Description(httpMethod, urlString, parameters, headers, showParameters, showHeaders)
    {
      description := "\U{1F30E} " + httpMethod.rawValue + " " + urlString;
      if parameters.Some? {
        description := description + "\nPARAMETERS: " + showParameters(parameters.value);
      }
      if headers.Some? {
        description := description + "\nHEADERS:\n" + showHeaders(headers.value);
      }
    }
  }

  /** The summary opens with the first line. */
  lemma DescriptionBeginsWithFirstLine<P>(httpMethod: HTTPMethod, urlString: string, parameters: Option<P>,
                                          headers: Option<HTTPHeaders>,
                                          showParameters: P -> string, showHeaders: HTTPHeaders -> string)
    ensures var d := Description(httpMethod, urlString, parameters, headers, showParameters, showHeaders);
      FirstLine(httpMethod, urlString) <= d
  {
  }

  /** Reading the summary after its first line: it continues with the parameters marker
      exactly when there are parameters, and after the parameters section it continues
      with the headers marker exactly when there are headers; the headers section is
      the last thing in it. */
  lemma DescriptionSections<P>(httpMethod: HTTPMethod, urlString: string, parameters: Option<P>,
                               headers: Option<HTTPHeaders>,
                               showParameters: P -> string, showHeaders: HTTPHeaders -> string)
    ensures var d := Description(httpMethod, urlString, parameters, headers, showParameters, showHeaders);
      var i := |FirstLine(httpMethod, urlString)|;
      && (parametersMarker <= d[i..] <==> parameters.Some?)
      && (parameters.Some? ==> d[i + |parametersMarker|..][..|showParameters(parameters.value)|]
                                 == showParameters(parameters.value))
    ensures var d := Description(httpMethod, urlString, parameters, headers, showParameters, showHeaders);
      var j := |FirstLine(httpMethod, urlString)| + |ParametersSection(parameters, showParameters)|;
      && (headersMarker <= d[j..] <==> headers.Some?)
      && (headers.Some? ==> d[j + |headersMarker|..] == showHeaders(headers.value))
  {
    var d := Description(httpMethod, urlString, parameters, headers, showParameters, showHeaders);
    var first := FirstLine(httpMethod, urlString);
    var ps := ParametersSection(parameters, showParameters);
    var hs := HeadersSection(headers, showHeaders);
    assert d == first + ps + hs;
    var i := |first|;
    assert d[i..] == ps + hs;
    if parameters.None? {
      assert d[i..] == hs;
      if headers.Some? {
        assert d[i..][1] == 'H';
      }
    }
    var j := i + |ps|;
    assert d[j..] == hs;
  }

  /** Parameters come before headers: when both are there, the parameters marker
      stands right after the first line and the headers marker after the parameters. */
  lemma ParametersBeforeHeaders<P>(httpMethod: HTTPMethod, urlString: string, parameters: Option<P>,
                                   headers: Option<HTTPHeaders>,
                                   showParameters: P -> string, showHeaders: HTTPHeaders -> string)
    requires parameters.Some? && headers.Some?
    ensures var d := Description(httpMethod, urlString, parameters, headers, showParameters, showHeaders);
      var i := |FirstLine(httpMethod, urlString)|;
      var j := i + |parametersMarker| + |showParameters(parameters.value)|;
      i < j <= |d| - |headersMarker| && d[i..i + |parametersMarker|] == parametersMarker
        && d[j..j + |headersMarker|] == headersMarker
  {
    var first := FirstLine(httpMethod, urlString);
    var ps := ParametersSection(parameters, showParameters);
    var hs := HeadersSection(headers, showHeaders);
    var d := first + ps + hs;
    assert d[|first| + |ps|..] == hs;
    assert d[|first|..|first| + |parametersMarker|] == ps[..|parametersMarker|];
  }

  /** The summary is the bare first line exactly when there are neither parameters nor headers. */
  lemma DescriptionBareIff<P>(httpMethod: HTTPMethod, urlString: string, parameters: Option<P>,
                              headers: Option<HTTPHeaders>,
                              showParameters: P -> string, showHeaders: HTTPHeaders -> string)
    ensures Description(httpMethod, urlString, parameters, headers, showParameters, showHeaders)
              == FirstLine(httpMethod, urlString)
            <==> parameters.None? && headers.None?
  {
    var first := FirstLine(httpMethod, urlString);
    var d := Description(httpMethod, urlString, parameters, headers, showParameters, showHeaders);
    assert |d| == |first| + |ParametersSection(parameters, showParameters)| + |HeadersSection(headers, showHeaders)|;
  }
}
