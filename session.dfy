/**
 * The controller's state as a value and the effect of each operation on
 * it, one transition function per operation and per outcome branch. The
 * network is not modelled: each operation receives the `Outcome` its
 * request settled with.
 */
module Session {
  import opened Wrappers
  import opened Articles

  /** The two screens the controller navigates between. */
  datatype Route = LoginScreen | ArticlesScreen {
    function Path(): string
    {
      if LoginScreen? then "/" else "/articles"
    }
  }

  /**
   * How a request settled: a 2xx response with its parsed body, a
   * response that is not `ok` (the handler throws `new Error(status)`;
   * `status` is then outside 200-299), or a failure before any status was
   * seen.
   */
  datatype Outcome<+B> = Ok(body: B) | HttpError(status: int) | TransportError {
    /** The catch blocks' `err.message == "401"` test. */
    predicate Unauthorized()
    {
      HttpError? && status == 401
    }
  }

  datatype LoginReply = LoginReply(message: string, token: string)
  datatype ListReply = ListReply(message: string, articles: seq<Article>)
  datatype ArticleReply = ArticleReply(message: string, article: Article)
  datatype DeleteReply = DeleteReply(message: string)

  const Goodbye: string := "Goodbye!"

  /**
   * `message`, `articles` and `spinner` are the component's state hooks,
   * `token` the "token" slot of local storage, `route` the current path.
   */
  datatype State = State(message: string, articles: seq<Article>, token: Option<string>,
                         route: Route, spinner: bool)

  /** The state a freshly mounted component starts from. */
  function Initial(route: Route, stored: Option<string>): (s: State)
    ensures s.message == "" && s.articles == [] && !s.spinner
    ensures s.token == stored && s.route == route
  {
    State("", [], stored, route, false)
  }

  /** Sign out: the token slot is emptied, the farewell shown, the login screen opened. */
  function Logout(s: State): (t: State)
    ensures t.token == None && t.message == Goodbye && t.route == LoginScreen
    ensures t.articles == s.articles && t.spinner == s.spinner
  {
    s.(token := None, message := Goodbye, route := LoginScreen)
  }

  function AfterLogin(s: State, o: Outcome<LoginReply>): (t: State)
    ensures !t.spinner && t.articles == s.articles
    ensures o.Ok? ==> t.token == Some(o.body.token) && t.message == o.body.message
                      && t.route == ArticlesScreen
    ensures !o.Ok? ==> t.token == s.token && t.route == s.route && t.message == ""
  {
    var started := s.(message := "", spinner := true);
    var settled := match o
      case Ok(reply) => started.(message := reply.message, token := Some(reply.token),
                                 route := ArticlesScreen)
      case _ => started;
    settled.(spinner := false)
  }

  function AfterGetArticles(s: State, o: Outcome<ListReply>): (t: State)
    ensures !t.spinner
    ensures o.Ok? ==> t.articles == o.body.articles && t.message == o.body.message
                      && t.token == s.token && t.route == s.route
    ensures o.Unauthorized() ==> t == Logout(s.(spinner := false))
    ensures !o.Ok? && !o.Unauthorized() ==> t == s.(message := "", spinner := false)
  {
    var started := s.(message := "", spinner := true);
    var settled := match o
      case Ok(reply) => started.(articles := reply.articles, message := reply.message)
      case _ => if o.Unauthorized() then Logout(started) else started;
    settled.(spinner := false)
  }

  function AfterPostArticle(s: State, o: Outcome<ArticleReply>): (t: State)
    ensures !t.spinner && t.token == s.token && t.route == s.route
    ensures o.Ok? ==> |t.articles| == |s.articles| + 1 && t.articles[..|s.articles|] == s.articles
                      && t.articles[|s.articles|] == o.body.article && t.message == o.body.message
    ensures !o.Ok? ==> t == s.(spinner := false)
  {
    var started := s.(spinner := true);
    var settled := match o
      case Ok(reply) => started.(articles := s.articles + [reply.article], message := reply.message)
      case _ => started;
    settled.(spinner := false)
  }

  function AfterUpdateArticle(s: State, id: int, o: Outcome<ArticleReply>): (t: State)
    ensures !t.spinner && t.token == s.token && t.route == s.route
    ensures o.Ok? ==> |t.articles| == |s.articles| && t.message == o.body.message
    ensures o.Ok? ==> forall i :: 0 <= i < |s.articles| ==>
                        t.articles[i] == (if s.articles[i].article_id == id then o.body.article
                                          else s.articles[i])
    ensures !o.Ok? ==> t == s.(spinner := false)
  {
    var started := s.(spinner := true);
    var settled := match o
      case Ok(reply) => started.(articles := ReplaceById(s.articles, id, reply.article),
                                 message := reply.message)
      case _ => started;
    settled.(spinner := false)
  }

  function AfterDeleteArticle(s: State, id: int, o: Outcome<DeleteReply>): (t: State)
    ensures !t.spinner
    ensures o.Ok? ==> t.message == o.body.message && t.token == s.token && t.route == s.route
    ensures o.Ok? ==> (forall x :: x in t.articles <==> x in s.articles && x.article_id != id)
                      && !HasId(t.articles, id)
    ensures o.Ok? ==> t.articles == RemoveById(s.articles, id)
    ensures o.Unauthorized() ==> t == Logout(s.(spinner := false))
    ensures !o.Ok? && !o.Unauthorized() ==> t == s.(message := "", spinner := false)
  {
    var started := s.(message := "", spinner := true);
    var settled := match o
      case Ok(reply) => started.(message := reply.message, articles := RemoveById(s.articles, id))
      case _ => if o.Unauthorized() then Logout(started) else started;
    settled.(spinner := false)
  }

  /**
   * Deleting an id that exactly one entry holds removes that entry alone,
   * keeping the others in order.
   */
  lemma DeleteRemovesOneEntry(s: State, id: int, k: nat, reply: DeleteReply)
    requires k < |s.articles| && s.articles[k].article_id == id
    requires !HasId(s.articles[..k], id) && !HasId(s.articles[k + 1..], id)
    ensures AfterDeleteArticle(s, id, Ok(reply)).articles == s.articles[..k] + s.articles[k + 1..]
    ensures |AfterDeleteArticle(s, id, Ok(reply)).articles| == |s.articles| - 1
  {
    RemoveOnlyAt(s.articles, id, k);
  }

  /** One user-triggered operation together with the outcome its request settled with. */
  datatype Op =
    | LogoutOp
    | LoginOp(username: string, password: string, login: Outcome<LoginReply>)
    | GetArticlesOp(list: Outcome<ListReply>)
    | PostArticleOp(fields: ArticleFields, created: Outcome<ArticleReply>)
    | UpdateArticleOp(id: int, fields: ArticleFields, updated: Outcome<ArticleReply>)
    | DeleteArticleOp(id: int, deleted: Outcome<DeleteReply>)

  function Apply(s: State, op: Op): State
  {
    match op
    case LogoutOp => Logout(s)
    case LoginOp(_, _, o) => AfterLogin(s, o)
    case GetArticlesOp(o) => AfterGetArticles(s, o)
    case PostArticleOp(_, o) => AfterPostArticle(s, o)
    case UpdateArticleOp(id, _, o) => AfterUpdateArticle(s, id, o)
    case DeleteArticleOp(id, o) => AfterDeleteArticle(s, id, o)
  }

  /** Operations carried out one after another, each settling before the next starts. */
  function Run(s: State, ops: seq<Op>): State
    decreases |ops|
  {
    if ops == [] then s else Run(Apply(s, ops[0]), ops[1..])
  }

  /** The operation's request settled with a 2xx response. */
  predicate Succeeded(op: Op)
  {
    match op
    case LogoutOp => false
    case LoginOp(_, _, o) => o.Ok?
    case GetArticlesOp(o) => o.Ok?
    case PostArticleOp(_, o) => o.Ok?
    case UpdateArticleOp(_, _, o) => o.Ok?
    case DeleteArticleOp(_, o) => o.Ok?
  }

  /** A list or delete request answered with 401: the two places that sign the user out. */
  predicate SignsOutOnRejection(op: Op)
  {
    (op.GetArticlesOp? && op.list.Unauthorized()) || (op.DeleteArticleOp? && op.deleted.Unauthorized())
  }

  /** A 401 on list or delete has exactly the effect of signing out from an idle screen. */
  lemma UnauthorizedIsLogout(s: State, op: Op)
    requires !s.spinner && SignsOutOnRejection(op)
    ensures Apply(s, op) == Apply(s, LogoutOp)
  {
  }

  /** A 401 on login, create or update is an ordinary failure: nobody is signed out. */
  lemma UnauthorizedIsOrdinaryElsewhere(s: State, id: int)
    ensures AfterLogin(s, HttpError(401)) == AfterLogin(s, TransportError)
    ensures AfterPostArticle(s, HttpError(401)) == AfterPostArticle(s, TransportError)
    ensures AfterUpdateArticle(s, id, HttpError(401)) == AfterUpdateArticle(s, id, TransportError)
    ensures AfterLogin(s, HttpError(401)).token == s.token
    ensures AfterPostArticle(s, HttpError(401)).token == s.token
    ensures AfterUpdateArticle(s, id, HttpError(401)).token == s.token
  {
  }

  /**
   * A request that did not succeed never touches the article list or the
   * token, except that a 401 on list or delete signs out; login, list and
   * delete end with an empty message, create and update keep the old one.
   */
  lemma FailureKeepsData(s: State, op: Op)
    requires !op.LogoutOp? && !Succeeded(op)
    ensures Apply(s, op).articles == s.articles
    ensures SignsOutOnRejection(op) ==> Apply(s, op).token == None
    ensures !SignsOutOnRejection(op) ==> Apply(s, op).token == s.token && Apply(s, op).route == s.route
    ensures !SignsOutOnRejection(op) && (op.LoginOp? || op.GetArticlesOp? || op.DeleteArticleOp?) ==>
              Apply(s, op).message == ""
    ensures op.PostArticleOp? || op.UpdateArticleOp? ==> Apply(s, op).message == s.message
  {
  }

  /**
   * The session changes hands only through a successful login (which
   * stores the returned token) or through a sign-out (explicit, or a 401
   * on list or delete), which empties the slot.
   */
  lemma TokenTransitions(s: State, op: Op)
    ensures Apply(s, op).token != s.token ==>
              (op.LoginOp? && op.login.Ok? && Apply(s, op).token == Some(op.login.body.token))
              || (Apply(s, op).token == None && (op.LogoutOp? || SignsOutOnRejection(op)))
    ensures op.LoginOp? && op.login.Ok? ==> Apply(s, op).token.Some?
    ensures op.LogoutOp? || SignsOutOnRejection(op) ==> Apply(s, op).token == None
  {
  }

  /** Every operation except sign-out leaves the spinner off, whatever the outcome. */
  lemma SpinnerOffAfterEveryOperation(s: State, op: Op)
    ensures !op.LogoutOp? ==> !Apply(s, op).spinner
    ensures op.LogoutOp? ==> Apply(s, op).spinner == s.spinner
  {
  }

  /** Started from a screen that is not dimmed, no sequence of operations leaves it dimmed. */
  lemma {:induction false} RunLeavesSpinnerOff(s: State, ops: seq<Op>)
    requires !s.spinner
    ensures !Run(s, ops).spinner
    decreases |ops|
  {
    if ops != [] {
      RunLeavesSpinnerOff(Apply(s, ops[0]), ops[1..]);
    }
  }

  /** The tokens handed out by the successful logins in `ops`. */
  function LoginTokens(ops: seq<Op>): set<string>
    decreases |ops|
  {
    if ops == [] then {}
    else (if ops[0].LoginOp? && ops[0].login.Ok? then {ops[0].login.body.token} else {})
         + LoginTokens(ops[1..])
  }

  /**
   * After any sequence of operations the stored token is the one held at
   * the start, or none, or one that a successful login returned.
   */
  lemma {:induction false} RunTokenProvenance(s: State, ops: seq<Op>)
    ensures var t := Run(s, ops).token;
            t == s.token || t == None || (t.Some? && t.value in LoginTokens(ops))
    decreases |ops|
  {
    if ops != [] {
      TokenTransitions(s, ops[0]);
      RunTokenProvenance(Apply(s, ops[0]), ops[1..]);
    }
  }

  /**
   * The server answers consistently with the list the controller holds: a
   * listed collection has unique ids, a created article has a new id, an
   * updated article keeps the id it was addressed by.
   */
  predicate ConsistentReply(s: State, op: Op)
  {
    match op
    case GetArticlesOp(Ok(reply)) => UniqueIds(reply.articles)
    case PostArticleOp(_, Ok(reply)) => !HasId(s.articles, reply.article.article_id)
    case UpdateArticleOp(id, _, Ok(reply)) => reply.article.article_id == id
    case _ => true
  }

  predicate ConsistentRun(s: State, ops: seq<Op>)
    decreases |ops|
  {
    ops == [] || (ConsistentReply(s, ops[0]) && ConsistentRun(Apply(s, ops[0]), ops[1..]))
  }

  /** One operation answered consistently keeps the article ids unique. */
  lemma ApplyKeepsUniqueIds(s: State, op: Op)
    requires UniqueIds(s.articles) && ConsistentReply(s, op)
    ensures UniqueIds(Apply(s, op).articles)
  {
    match op
    case PostArticleOp(_, Ok(reply)) =>
      AppendKeepsUniqueIds(s.articles, reply.article);
    case UpdateArticleOp(id, _, Ok(reply)) =>
      ReplaceKeepsUniqueIds(s.articles, id, reply.article);
    case DeleteArticleOp(id, Ok(_)) =>
      RemoveKeepsUniqueIds(s.articles, id);
    case _ =>
  }

  /**
   * With a consistent server, the article list keeps unique ids through
   * any sequence of operations, although it is never re-fetched after a
   * mutation.
   */
  lemma {:induction false} RunKeepsUniqueIds(s: State, ops: seq<Op>)
    requires UniqueIds(s.articles) && ConsistentRun(s, ops)
    ensures UniqueIds(Run(s, ops).articles)
    decreases |ops|
  {
    if ops != [] {
      ApplyKeepsUniqueIds(s, ops[0]);
      RunKeepsUniqueIds(Apply(s, ops[0]), ops[1..]);
    }
  }
}
