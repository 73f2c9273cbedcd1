/**
 * The client object `OpenAIKit`: it keeps the API token and the optional
 * organization and builds from them the headers every request carries.
 */
module OpenAIKit {
  import opened Wrappers

  type OpenAIHeaders = map<string, string>

  const AuthorizationKey: string := "Authorization"
  const OrganizationKey: string := "OpenAI-Organization"
  const ContentTypeKey: string := "content-type"
  const JsonContentType: string := "application/json"
  const MultipartContentType: string := "multipart/form-data"

  class OpenAIKit {
    const apiToken: string
    const organization: Option<string>

    constructor (apiToken: string, organization: Option<string> := None)
      ensures this.apiToken == apiToken && this.organization == organization
    {
      this.apiToken := apiToken;
      this.organization := organization;
    }

    /** The headers of a JSON request. */
    method BaseHeaders() returns (headers: OpenAIHeaders)
      ensures headers.Keys == {AuthorizationKey, ContentTypeKey} + (if organization.Some? then {OrganizationKey} else {})
      ensures |headers| == if organization.Some? then 3 else 2
      ensures headers[AuthorizationKey] == "Bearer " + apiToken
      ensures OrganizationKey in headers <==> organization.Some?
      ensures organization.Some? ==> headers[OrganizationKey] == organization.value
      ensures headers[ContentTypeKey] == JsonContentType
    {
      headers := map[];
      headers := headers[AuthorizationKey := "Bearer " + apiToken];
      if organization.Some? {
        headers := headers[OrganizationKey := organization.value];
      }
      headers := headers[ContentTypeKey := JsonContentType];
      HeaderKeysDistinct();
    }

    /** The headers of a multipart form upload. */
    method BaseMultipartHeaders() returns (headers: OpenAIHeaders)
      ensures headers.Keys == {AuthorizationKey, ContentTypeKey} + (if organization.Some? then {OrganizationKey} else {})
      ensures |headers| == if organization.Some? then 3 else 2
      ensures headers[AuthorizationKey] == "Bearer " + apiToken
      ensures OrganizationKey in headers <==> organization.Some?
      ensures organization.Some? ==> headers[OrganizationKey] == organization.value
      ensures headers[ContentTypeKey] == MultipartContentType
    {
      headers := map[];
      headers := headers[AuthorizationKey := "Bearer " + apiToken];
      if organization.Some? {
        headers := headers[OrganizationKey := organization.value];
      }
      headers := headers[ContentTypeKey := MultipartContentType];
      HeaderKeysDistinct();
    }

    /** The two builders agree on every key except the content type, where they differ. */
    method HeadersAgreeExceptContentType() returns (json: OpenAIHeaders, multipart: OpenAIHeaders)
      ensures json.Keys == multipart.Keys
      ensures forall k :: k in json && k != ContentTypeKey ==> json[k] == multipart[k]
      ensures ContentTypeKey in json && json[ContentTypeKey] != multipart[ContentTypeKey]
    {
      json := BaseHeaders();
      multipart := BaseMultipartHeaders();
      assert JsonContentType[0] != MultipartContentType[0];
    }
  }

  /** The three header names are distinct. */
  lemma HeaderKeysDistinct()
    ensures AuthorizationKey != OrganizationKey
    ensures AuthorizationKey != ContentTypeKey
    ensures OrganizationKey != ContentTypeKey
  {
    assert AuthorizationKey[0] != OrganizationKey[0];
    assert AuthorizationKey[0] != ContentTypeKey[0];
    assert OrganizationKey[0] != ContentTypeKey[0];
  }
}
