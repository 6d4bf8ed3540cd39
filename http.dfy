/** Stand-ins for the values the pipeline takes from Alamofire and Foundation: the
    HTTP method, headers, the parameter encoders and the JSON key strategies. Only
    what the pipeline inspects or forwards is kept; the encoders themselves are tags. */
module HTTP {

  /** Alamofire's `HTTPMethod`, a struct around its wire name. */
  datatype HTTPMethod = HTTPMethod(rawValue: string)

  const get := HTTPMethod("GET")
  const post := HTTPMethod("POST")
  const put := HTTPMethod("PUT")
  const patch := HTTPMethod("PATCH")
  const delete := HTTPMethod("DELETE")

  /** One header line. */
  datatype HTTPHeader = HTTPHeader(name: string, value: string)

  /** Alamofire's `HTTPHeaders`: headers in the order they were given. */
  type HTTPHeaders = seq<HTTPHeader>

  /** `HTTPHeader.contentType(_:)` */
  function ContentType(value: string): HTTPHeader
  {
    HTTPHeader("Content-Type", value)
  }

  /** `HTTPHeader.accept(_:)` */
  function Accept(value: string): HTTPHeader
  {
    HTTPHeader("Accept", value)
  }

  /** How outgoing parameter names are written: as declared, or converted to snake case. */
  datatype KeyEncoding = UseDefaultKeyNames | ConvertToSnakeCase

  /** Which parameter encoder is in use: one of Alamofire's two, with its key encoding, or
      any other `ParameterEncoder` a caller passes in, known only by a name. */
  datatype ParameterEncoder =
    | URLEncodedForm(keyEncoding: KeyEncoding)
    | JSONBody(keyEncoding: KeyEncoding)
    | OtherEncoder(name: string)

  /** `JSONDecoder.KeyDecodingStrategy`: how response field names are read. */
  datatype KeyDecodingStrategy = UseDefaultKeys | ConvertFromSnakeCase
}
