/** The endpoint table (src/services/apiServices.ts): every backend
    operation the client uses, with its path, verb, payload and `sendToken`
    argument. */
module ApiServices {
  import opened Wrappers
  import opened BrowserTab
  import opened AxiosClient
  import opened ApiMethods

  datatype Operation =
    | SignUp(body: Payload)
    | SignIn(body: Payload)
    | GetAllArticles
    | GetArticleById(id: string)
    | CreateArticle(body: Payload)
    | DeleteArticle(id: string)
    | UpdateArticleById(id: string, body: Payload)
    | GetHistory(id: string)
    | GenerateSummary(id: string)

  /** The arguments an operation passes to `apiMethod`; `None` marks an
      argument left to its default. */
  datatype Endpoint = Endpoint(url: string, verb: Method, data: Option<Payload>, sendToken: Option<bool>)

  const ApiRoot: string := "api/v1/"
  const ArticlesRoot: string := "api/v1/articles"

  predicate IsRead(op: Operation) {
    op.GetAllArticles? || op.GetArticleById? || op.GetHistory? || op.GenerateSummary?
  }

  predicate HasBody(op: Operation) {
    op.SignUp? || op.SignIn? || op.CreateArticle? || op.UpdateArticleById?
  }

  function EndpointOf(op: Operation): (e: Endpoint)
    ensures StartsWith(e.url, ApiRoot)
    ensures e.verb == Get <==> IsRead(op)
    ensures IsRead(op) ==> e.data == Some(EmptyObject) && e.sendToken == Some(true)
    ensures !IsRead(op) ==> e.sendToken == None
    ensures HasBody(op) ==> e.data == Some(op.body)
    ensures op.DeleteArticle? ==> e.verb == Delete && e.data == None
    ensures op.SignUp? || op.SignIn? || op.CreateArticle? ==> e.verb == Post
    ensures op.UpdateArticleById? ==> e.verb == Patch
  {
    match op
    case SignUp(body) => Endpoint("api/v1/auth/signup", Post, Some(body), None)
    case SignIn(body) => Endpoint("api/v1/auth/login/", Post, Some(body), None)
    case GetAllArticles => Endpoint(ArticlesRoot, Get, Some(EmptyObject), Some(true))
    case GetArticleById(id) => Endpoint(ArticlesRoot + "/" + id, Get, Some(EmptyObject), Some(true))
    case CreateArticle(body) => Endpoint(ArticlesRoot + "/", Post, Some(body), None)
    case DeleteArticle(id) => Endpoint(ArticlesRoot + "/" + id + "/", Delete, None, None)
    case UpdateArticleById(id, body) => Endpoint(ArticlesRoot + "/" + id, Patch, Some(body), None)
    case GetHistory(id) => Endpoint(ArticlesRoot + "/" + id + "/history", Get, Some(EmptyObject), Some(true))
    case GenerateSummary(id) => Endpoint(ArticlesRoot + "/" + id + "/summary", Get, Some(EmptyObject), Some(true))
  }

  /** Calling an operation: `apiMethod` with the operation's arguments. */
  function Invoke<T>(b: Browser, op: Operation, outcome: Outcome<T>): (x: Exchange<T>)
    ensures var e := EndpointOf(op);
            x.request == BuildRequest(e.url, e.verb, e.data, e.sendToken)
    ensures outcome.Resolved? ==> x.result == Success(outcome.data) && x.browser == b
    ensures outcome.Rejected? ==> x.result == Failure(ErrorMessage(outcome.response))
    ensures x.browser == Intercept(b, outcome).0
  {
    var e := EndpointOf(op);
    ApiMethod(b, e.url, e.verb, e.data, e.sendToken, outcome)
  }

  /** Operations on one article address "api/v1/articles/" + id followed by
      a fixed suffix. */
  lemma IdPaths(id: string, body: Payload)
    ensures EndpointOf(GetArticleById(id)).url == "api/v1/articles/" + id
    ensures EndpointOf(UpdateArticleById(id, body)).url == "api/v1/articles/" + id
    ensures EndpointOf(DeleteArticle(id)).url == "api/v1/articles/" + id + "/"
    ensures EndpointOf(GetHistory(id)).url == "api/v1/articles/" + id + "/history"
    ensures EndpointOf(GenerateSummary(id)).url == "api/v1/articles/" + id + "/summary"
  {
  }

  /** What goes on the wire: reads carry `{}` as query parameters and no
      body; writes carry their body, and delete the default `{}`. */
  lemma WireShape<T>(b: Browser, op: Operation, outcome: Outcome<T>)
    ensures var r := Invoke(b, op, outcome).request;
            && (IsRead(op) ==> r.params == Some(EmptyObject) && r.body == None)
            && (HasBody(op) ==> r.body == Some(op.body))
            && (op.DeleteArticle? ==> r.body == Some(EmptyObject))
  {
  }
}
