/**
 * The `App` component's controller: the state hooks and the token slot as
 * fields, and each handler as a method that performs the handler's
 * updates in the handler's order. Each method also returns the request
 * descriptor it would send, built from the token read at that point.
 */
module Controller {
  import opened Wrappers
  import opened Articles
  import opened Requests
  import opened Session

  class App {
    var message: string
    var articles: seq<Article>
    var token: Option<string>
    var route: Route
    var spinner: bool

    /** The fields as a value, for stating each handler's effect. */
    function Snapshot(): State
      reads this
    {
      State(message, articles, token, route, spinner)
    }

    /** Mounting: empty message and list, spinner off; the stored token and the path are as found. */
    constructor (path: Route, stored: Option<string>)
      ensures Snapshot() == Initial(path, stored)
    {
      message := "";
      articles := [];
      token := stored;
      route := path;
      spinner := false;
    }

    method Logout()
      modifies this
      ensures Snapshot() == Session.Logout(old(Snapshot()))
      ensures token == None && message == Goodbye && route == LoginScreen
      ensures articles == old(articles) && spinner == old(spinner)
    {
      token := None;
      message := Goodbye;
      route := LoginScreen;
    }

    method Login(username: string, password: string, outcome: Outcome<LoginReply>) returns (request: Request)
      modifies this
      ensures request == LoginRequest(username, password)
      ensures Snapshot() == AfterLogin(old(Snapshot()), outcome)
    {
      message := "";
      spinner := true;
      request := LoginRequest(username, password);
      if outcome.Ok? {
        message := outcome.body.message;
        token := Some(outcome.body.token);
        route := ArticlesScreen;
      }
      spinner := false;
    }

    method GetArticles(outcome: Outcome<ListReply>) returns (request: Request)
      modifies this
      ensures request == ListRequest(old(token))
      ensures Snapshot() == AfterGetArticles(old(Snapshot()), outcome)
    {
      message := "";
      spinner := true;
      request := ListRequest(token);
      if outcome.Ok? {
        articles := outcome.body.articles;
        message := outcome.body.message;
      } else if outcome.Unauthorized() {
        Logout();
      }
      spinner := false;
    }

    method PostArticle(fields: ArticleFields, outcome: Outcome<ArticleReply>) returns (request: Request)
      modifies this
      ensures request == CreateRequest(old(token), fields)
      ensures Snapshot() == AfterPostArticle(old(Snapshot()), outcome)
    {
      spinner := true;
      request := CreateRequest(token, fields);
      if outcome.Ok? {
        articles := articles + [outcome.body.article];
        message := outcome.body.message;
      }
      spinner := false;
    }

    method UpdateArticle(id: int, fields: ArticleFields, outcome: Outcome<ArticleReply>) returns (request: Request)
      modifies this
      ensures request == UpdateRequest(old(token), id, fields)
      ensures Snapshot() == AfterUpdateArticle(old(Snapshot()), id, outcome)
    {
      spinner := true;
      request := UpdateRequest(token, id, fields);
      if outcome.Ok? {
        articles := ReplaceById(articles, id, outcome.body.article);
        message := outcome.body.message;
      }
      spinner := false;
    }

    method DeleteArticle(id: int, outcome: Outcome<DeleteReply>) returns (request: Request)
      modifies this
      ensures request == DeleteRequest(old(token), id)
      ensures Snapshot() == AfterDeleteArticle(old(Snapshot()), id, outcome)
    {
      message := "";
      spinner := true;
      request := DeleteRequest(token, id);
      if outcome.Ok? {
        message := outcome.body.message;
        articles := RemoveById(articles, id);
      } else if outcome.Unauthorized() {
        Logout();
      }
      spinner := false;
    }
  }

  /** A successful login stores the token, shows the message and opens the articles screen. */
  method LoginScenario()
  {
    var app := new App(LoginScreen, None);
    var r := app.Login("alice", "secret", Ok(LoginReply("welcome", "t1")));
    assert app.token == Some("t1") && app.message == "welcome" && app.route.Path() == "/articles";
    assert r.authorization == None;
  }

  /** A 401 on listing signs the user out and keeps the list. */
  method UnauthorizedListScenario(held: seq<Article>)
  {
    var app := new App(ArticlesScreen, Some("t1"));
    var r := app.GetArticles(Ok(ListReply("here you go", held)));
    r := app.GetArticles(HttpError(401));
    assert r.authorization == Some("t1");
    assert app.token == None && app.message == "Goodbye!" && app.route.Path() == "/";
    assert app.articles == held && !app.spinner;
  }

  /** Creating from a list of two appends the server's article as the third entry. */
  method CreateScenario(a1: Article, a2: Article)
  {
    var app := new App(ArticlesScreen, Some("t1"));
    var r := app.GetArticles(Ok(ListReply("here you go", [a1, a2])));
    var created := Article(5, "A", "B", "C");
    r := app.PostArticle(ArticleFields("A", "B", "C"), Ok(ArticleReply("created", created)));
    assert app.articles == [a1, a2, created] && app.message == "created";
  }

  /** Deleting id 3 from ids [1, 3, 5] leaves ids [1, 5]. */
  method DeleteScenario()
  {
    var a1, a3, a5 := Article(1, "t", "x", "y"), Article(3, "t", "x", "y"), Article(5, "t", "x", "y");
    var app := new App(ArticlesScreen, Some("t1"));
    var r := app.GetArticles(Ok(ListReply("here you go", [a1, a3, a5])));
    r := app.DeleteArticle(3, Ok(DeleteReply("deleted")));
    assert r.verb == Delete;
    assert app.articles == [a1, a5] by {
      RemoveUniqueId([a1, a3, a5], 3, 1);
      assert [a1, a3, a5][..1] + [a1, a3, a5][2..] == [a1, a5];
    }
    assert app.message == "deleted" && !app.spinner;
  }
}
