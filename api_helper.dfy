/** APIHelperBase: the two factories for parameter encoders. */
module APIHelper {
  import opened HTTP

  /** `encodeParameterForURL(keyEncoding:)`, snake case unless told otherwise. */
  function EncodeParameterForURL(keyEncoding: KeyEncoding := ConvertToSnakeCase): (e: ParameterEncoder)
    ensures e.URLEncodedForm? && e.keyEncoding == keyEncoding
  {
    URLEncodedForm(keyEncoding)
  }

  /** `encodeParameterForJSON(keyEncoding:)`, snake case unless told otherwise. */
  function EncodeParameterForJSON(keyEncoding: KeyEncoding := ConvertToSnakeCase): (e: ParameterEncoder)
    ensures e.JSONBody? && e.keyEncoding == keyEncoding
  {
    JSONBody(keyEncoding)
  }

  /** Called without arguments, both factories write parameter names in snake case,
      and they differ in where the parameters go. */
  lemma DefaultFactoriesUseSnakeCase()
    ensures EncodeParameterForURL() == URLEncodedForm(ConvertToSnakeCase)
    ensures EncodeParameterForJSON() == JSONBody(ConvertToSnakeCase)
    ensures EncodeParameterForURL() != EncodeParameterForJSON()
  {
  }
}
