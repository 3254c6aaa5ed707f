/**
 * The request each controller operation sends: method, URL, headers and
 * payload. Sending it is outside the model; the controller's operations
 * return the descriptor they would hand to `fetch`.
 */
module Requests {
  import opened Wrappers
  import opened Articles
  import opened Decimal

  const ArticlesUrl: string := "http://localhost:9000/api/articles"
  const LoginUrl: string := "http://localhost:9000/api/login"
  const JsonContentType: string := "application/json"

  datatype Method = Get | Post | Put | Delete

  datatype Payload =
    | NoPayload
    | Credentials(username: string, password: string)
    | ArticlePayload(fields: ArticleFields)

  /**
   * `authorization` is `None` when the request has no Authorization header
   * at all (login) and `Some(v)` when the header is sent with value `v`.
   */
  datatype Request = Request(verb: Method, url: string, contentType: string,
                             authorization: Option<string>, payload: Payload)

  /**
   * The header value built from `localStorage.getItem("token")`: the raw
   * token, without any scheme prefix. An empty slot yields `null`, which
   * the Fetch API's header conversion turns into the text "null".
   */
  function AuthorizationValue(stored: Option<string>): (v: string)
    ensures stored.Some? ==> v == stored.value
    ensures stored.None? ==> v == "null"
  {
    match stored
    case Some(t) => t
    case None => "null"
  }

  /** `${articlesUrl}/${article_id}`: the item URL, which names exactly the id it was built from. */
  function ArticleUrl(id: int): (url: string)
    ensures ArticleIdOfUrl(url) == Some(id)
  {
    var prefix := ArticlesUrl + "/";
    var url := prefix + IntToString(id);
    assert url[..|prefix|] == prefix;
    assert url[|prefix|..] == IntToString(id);
    url
  }

  /** The article id an item URL addresses, or `None` for any other URL. */
  function ArticleIdOfUrl(url: string): Option<int>
  {
    var prefix := ArticlesUrl + "/";
    if |prefix| <= |url| && url[..|prefix|] == prefix then ParseInt(url[|prefix|..]) else None
  }

  /** An unauthenticated POST of the credentials to the login endpoint. */
  function LoginRequest(username: string, password: string): (r: Request)
    ensures r.verb == Post && r.url == LoginUrl && r.contentType == JsonContentType
    ensures r.authorization == None
    ensures r.payload == Credentials(username, password)
  {
    Request(Post, LoginUrl, JsonContentType, None, Credentials(username, password))
  }

  /** A GET of the whole collection, carrying the stored token. */
  function ListRequest(stored: Option<string>): (r: Request)
    ensures r.verb == Get && r.url == ArticlesUrl && ArticleIdOfUrl(r.url) == None
    ensures r.contentType == JsonContentType && r.payload == NoPayload
    ensures stored.Some? ==> r.authorization == Some(stored.value)
  {
    Request(Get, ArticlesUrl, JsonContentType, Some(AuthorizationValue(stored)), NoPayload)
  }

  /** A POST of the form's fields to the collection, carrying the stored token. */
  function CreateRequest(stored: Option<string>, fields: ArticleFields): (r: Request)
    ensures r.verb == Post && r.url == ArticlesUrl && ArticleIdOfUrl(r.url) == None
    ensures r.contentType == JsonContentType && r.payload == ArticlePayload(fields)
    ensures stored.Some? ==> r.authorization == Some(stored.value)
  {
    Request(Post, ArticlesUrl, JsonContentType, Some(AuthorizationValue(stored)), ArticlePayload(fields))
  }

  /** A PUT of the form's fields to the item URL of `id`, carrying the stored token. */
  function UpdateRequest(stored: Option<string>, id: int, fields: ArticleFields): (r: Request)
    ensures r.verb == Put && ArticleIdOfUrl(r.url) == Some(id)
    ensures r.contentType == JsonContentType && r.payload == ArticlePayload(fields)
    ensures stored.Some? ==> r.authorization == Some(stored.value)
  {
    Request(Put, ArticleUrl(id), JsonContentType, Some(AuthorizationValue(stored)), ArticlePayload(fields))
  }

  /** A DELETE of the item URL of `id`, with no body, carrying the stored token. */
  function DeleteRequest(stored: Option<string>, id: int): (r: Request)
    ensures r.verb == Delete && ArticleIdOfUrl(r.url) == Some(id)
    ensures r.contentType == JsonContentType && r.payload == NoPayload
    ensures stored.Some? ==> r.authorization == Some(stored.value)
  {
    Request(Delete, ArticleUrl(id), JsonContentType, Some(AuthorizationValue(stored)), NoPayload)
  }

  /** Distinct ids address distinct item URLs. */
  lemma ArticleUrlInjective(i: int, j: int)
    requires ArticleUrl(i) == ArticleUrl(j)
    ensures i == j
  {
    assert ArticleIdOfUrl(ArticleUrl(i)) == Some(i);
    assert ArticleIdOfUrl(ArticleUrl(j)) == Some(j);
  }

  /**
   * Every article request carries the stored token verbatim as its
   * Authorization header; the login request carries none.
   */
  lemma AuthorizationIsRawToken(stored: Option<string>, id: int, fields: ArticleFields, username: string, password: string)
    ensures LoginRequest(username, password).authorization == None
    ensures forall r :: r in {ListRequest(stored), CreateRequest(stored, fields),
                               UpdateRequest(stored, id, fields), DeleteRequest(stored, id)} ==>
              r.contentType == JsonContentType &&
              (stored.Some? ==> r.authorization == Some(stored.value)) &&
              (stored.None? ==> r.authorization == Some("null"))
  {
  }
}
