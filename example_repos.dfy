/** The example app's repository search endpoint, used as a concrete instance of the
    pipeline: a GET descriptor whose subclass initializer switches the response key
    strategy to `useDefaultKeys` after the headers are set. The app's `APIService`
    subclass is not part of this model, so the request runs with the default hooks. */
module ExampleRepos {
  import opened Swift
  import opened HTTP
  import opened APIErrors
  import opened APIInputs
  import opened APIService
  import opened ExampleAPIInput

  /** `ReposParameters`: the search query and the page to fetch. */
  datatype ReposParameters = ReposParameters(query: string, perPage: int, page: int)

  const getReposUrl := "https://api.github.com/search/repositories"

  /** The transport request every repository search sends for this page. */
  function GetReposRequest(perPage: int, page: int): TransportRequest<ReposParameters>
  {
    TransportRequest(getReposUrl, get, Some(ReposParameters("language:swift", perPage, page)),
                     URLEncodedForm(ConvertToSnakeCase), Some(APIInputHeaders()))
  }

  /** `GetReposInput.init(getPageModel:)`. */
  method NewGetReposInput(perPage: int, page: int) returns (input: APIInputBase<ReposParameters>)
    ensures fresh(input)
    ensures TransportRequestOf(input) == GetReposRequest(perPage, page)
    ensures input.keyDecodingStrategy == UseDefaultKeys
    ensures input.accessToken == None && !input.isUseCache
  {
    input := NewAPIInput(getReposUrl, get, Some(ReposParameters("language:swift", perPage, page)));
    input.keyDecodingStrategy := UseDefaultKeys;
  }

  /** `getRepos(_:)`: a 2xx answer is decoded with the keys as declared; any other
      answer fails before decoding, with the transport's error or an unknown error. */
  method GetRepos<T>(perPage: int, page: int, session: TransportRequest<ReposParameters> -> DataResponse,
                     decode: (Bytes, KeyDecodingStrategy) -> Result<T, ForeignError>)
    returns (r: Result<T, Error>)
    ensures var resp := session(GetReposRequest(perPage, page));
      (resp.result.DataSuccess? && resp.response.Some? && IsSuccessStatus(resp.response.value.statusCode))
        ==> r == DecodeResponse(decode, resp.result.data, UseDefaultKeys)
    ensures var resp := session(GetReposRequest(perPage, page));
      (!(resp.result.DataSuccess? && resp.response.Some? && IsSuccessStatus(resp.response.value.statusCode)))
        ==> r.Failure? && r.error == ProcessMap(resp, DefaultHandleResponseError).error
  {
    var input := NewGetReposInput(perPage, page);
    r := DefaultRequest(input, session, decode);
  }
}
