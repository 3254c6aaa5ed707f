# Session and articles controller of the App component

This project models the controller inside `frontend/components/App.js`: the
React component that signs a user in against the articles API, keeps the
session token in local storage, and lists, creates, updates and deletes
articles, reflecting each server reply into its local state (status message,
article list, spinner) and navigating between the login screen (`/`) and the
articles screen (`/articles`).

The model has two layers.

- `Session` describes the controller's state as a value (`State`: message,
  articles, token slot, route, spinner) and gives, for each handler, a
  transition function (`Logout`, `AfterLogin`, `AfterGetArticles`,
  `AfterPostArticle`, `AfterUpdateArticle`, `AfterDeleteArticle`) whose
  contract states the handler's effect branch by branch. The network is
  replaced by an `Outcome` argument: `Ok(body)` for a 2xx reply with its
  parsed body, `HttpError(status)` for the `!res.ok` throw, and
  `TransportError` for every other rejection. Traces of operations (`Op`,
  `Run`) carry the lemmas about the session state machine: the 401 rule,
  what failures leave untouched, where the token can come from, that the
  spinner never stays on, and that the article ids stay unique when the
  server answers consistently.
- `Controller.App` is the component itself as a class: the four pieces of
  state the handlers touch plus the token slot are fields, and each handler
  is a method that performs the source's updates in the source's order
  (clear the message, raise the spinner, apply the reply, sign out on 401,
  lower the spinner). Each method is proved to end in exactly the state the
  matching `Session` function describes, and returns the request descriptor
  it sends.

`Articles` holds the three list updates as pure functions (the spread
append, the `map` that swaps in an article by id, the `filter` that drops
one by id) with their lemmas. `Requests` builds each request (method, URL,
content type, Authorization header, payload); `Decimal` renders an integer
id into the item URL and parses it back.

Three behaviours a reader might expect otherwise; the model follows the
code in each:

- A failed login leaves the message empty, not as it was, because the
  handler clears it before sending (App.js line 35).
- The Authorization header is the raw stored token with no `Bearer ` prefix.
  With the slot empty, `localStorage.getItem` yields `null`, which the Fetch
  API sends as the text `null`.
- Nothing clears the selected article after an update or delete: App.js
  only passes `setCurrentArticleId` through to its children.

## Model

| member | source | states |
|---|---|---|
| Articles.ReplaceById | frontend/components/App.js:143-147 | the updated list has the same length; every entry with the given id is the returned article, every other entry is unchanged at its index |
| Articles.ReplaceAbsentId | frontend/components/App.js:143-147 | updating an id no entry holds leaves the list as it was |
| Articles.ReplaceKeepsUniqueIds | frontend/components/App.js:143-147 | replacing by id with an article that keeps that id keeps ids unique |
| Articles.RemoveById | frontend/components/App.js:177 | an article remains after the delete iff it was in the list and its id differs from the deleted id |
| Articles.RemoveByIdConcat | frontend/components/App.js:177 | the filter distributes over concatenation, so the relative order of the remaining entries is kept |
| Articles.RemoveByIdLength | frontend/components/App.js:177 | the list shrinks by exactly the number of entries that held the id |
| Articles.RemoveAbsentId | frontend/components/App.js:177 | deleting an id no entry holds leaves the list as it was |
| Articles.RemoveUniqueId | frontend/components/App.js:177 | with unique ids, deleting the id at index k yields the list without index k, one shorter |
| Articles.RemoveKeepsUniqueIds | frontend/components/App.js:177 | the filter never introduces a repeated id |
| Articles.AppendKeepsUniqueIds | frontend/components/App.js:117 | appending an article with a new id keeps ids unique |
| Decimal.ParseNatToString | frontend/components/App.js:129 | the decimal digits of a natural number read back to that number |
| Decimal.IntToString | frontend/components/App.js:129 | the text `${article_id}` puts into a URL reads back to the id |
| Decimal.IntToStringInjective | frontend/components/App.js:160 | distinct ids render to distinct text |
| Requests.ArticleUrl | frontend/components/App.js:160 | the item URL `${articlesUrl}/${article_id}` names exactly the id it was built from |
| Requests.ArticleUrlInjective | frontend/components/App.js:160 | distinct ids address distinct item URLs |
| Requests.AuthorizationIsRawToken | frontend/components/App.js:77-81 | every article request sends JSON and carries the stored token verbatim as Authorization ("null" when the slot is empty); the login request has no Authorization header |
| Requests.AuthorizationValue | frontend/components/App.js:80 | the Authorization value is the stored token verbatim, with no scheme prefix; an empty slot is sent as "null" |
| Requests.LoginRequest | frontend/components/App.js:37-46 | login is a POST of the username and password as JSON to the login URL, with no Authorization header |
| Requests.ListRequest | frontend/components/App.js:77-82 | listing is a GET of the collection URL (no item id) with the stored token as Authorization |
| Requests.CreateRequest | frontend/components/App.js:103-110 | creating is a POST of the form's fields as JSON to the collection URL with the stored token |
| Requests.UpdateRequest | frontend/components/App.js:129-136 | updating is a PUT of the form's fields to the item URL of the id with the stored token |
| Requests.DeleteRequest | frontend/components/App.js:164-170 | deleting is a DELETE, with no body, of the item URL of the id with the stored token |
| Session.Initial | frontend/components/App.js:15-18 | a mounted component starts with an empty message and list and the spinner off |
| Session.Logout | frontend/components/App.js:28-32 | the token slot is emptied, the message is "Goodbye!", the route is the login screen; articles and spinner are untouched |
| Session.AfterLogin | frontend/components/App.js:34-63 | on success the returned token is stored, the returned message shown and the articles screen opened; on any failure, 401 included, token and route are unchanged and the message is empty; the spinner ends off |
| Session.AfterGetArticles | frontend/components/App.js:65-98 | on success the list becomes exactly the server's list and the message the server's; a 401 is a sign-out; other failures leave everything but an empty message; the spinner ends off |
| Session.AfterPostArticle | frontend/components/App.js:100-124 | on success the returned article is appended after the unchanged old entries and the message is the server's; on failure only the spinner changes; the token and route never change |
| Session.AfterUpdateArticle | frontend/components/App.js:126-155 | on success the length is kept, entries with the id become the returned article, the rest keep their index; on failure only the spinner changes |
| Session.AfterDeleteArticle | frontend/components/App.js:159-186 | on success the list is the old one filtered by id, so no remaining entry has the id and exactly the others remain in their order, with the server's message; a 401 is a sign-out; other failures leave everything but an empty message |
| Session.DeleteRemovesOneEntry | frontend/components/App.js:175-178 | deleting an id that only the entry at index k holds removes that entry alone, keeping the order of the rest, one shorter |
| Session.UnauthorizedIsLogout | frontend/components/App.js:91-95 | a 401 on list or delete has exactly the effect of sign-out from an idle screen |
| Session.UnauthorizedIsOrdinaryElsewhere | frontend/components/App.js:120-122 | on login, create and update a 401 behaves like any other failure and keeps the token |
| Session.FailureKeepsData | frontend/components/App.js:150-153 | a failed request never changes the article list, and changes the token only by a 401 sign-out; login, list and delete end with an empty message, create and update keep the old one |
| Session.TokenTransitions | frontend/components/App.js:55-57 | the token changes only by a successful login, which stores the returned token, or by a sign-out (explicit, or a 401 on list or delete), which empties the slot |
| Session.SpinnerOffAfterEveryOperation | frontend/components/App.js:185 | every handler but sign-out ends with the spinner off on every branch; sign-out leaves it as it was |
| Session.RunLeavesSpinnerOff | frontend/components/App.js:97 | from a screen that is not dimmed, no sequence of handlers leaves it dimmed |
| Session.RunTokenProvenance | frontend/components/App.js:56 | after any sequence of handlers the stored token is the initial one, none, or one a successful login returned |
| Session.ApplyKeepsUniqueIds | frontend/components/App.js:117 | a handler whose reply is consistent with the held list keeps the article ids unique |
| Session.RunKeepsUniqueIds | frontend/components/App.js:143-147 | with consistent replies the list keeps unique ids through any sequence of handlers, without ever being re-fetched |
| Controller.App.constructor | frontend/components/App.js:15-18 | the fields start as the state hooks' initial values, with the stored token and the current path |
| Controller.App.Logout | frontend/components/App.js:28-32 | the fields end as Session.Logout says: no token, "Goodbye!", login screen, the rest untouched |
| Controller.App.Login | frontend/components/App.js:34-63 | the fields end as Session.AfterLogin says; the request is a POST of the credentials to the login URL |
| Controller.App.GetArticles | frontend/components/App.js:65-98 | the fields end as Session.AfterGetArticles says, signing out through Logout on 401; the request is a GET carrying the token read before it |
| Controller.App.PostArticle | frontend/components/App.js:100-124 | the fields end as Session.AfterPostArticle says; the request is a POST of the fields with the token |
| Controller.App.UpdateArticle | frontend/components/App.js:126-155 | the fields end as Session.AfterUpdateArticle says; the request is a PUT to the item URL of the id |
| Controller.App.DeleteArticle | frontend/components/App.js:159-186 | the fields end as Session.AfterDeleteArticle says, signing out through Logout on 401; the request is a DELETE to the item URL of the id |

## Left out

- Rendering (App.js lines 191-215) and the child components `Articles`, `LoginForm`, `ArticleForm`, `Spinner` and `Message`: presentation only, and their sources are not part of this model.
- `fetch`, JSON encoding and decoding, and console logging: I/O. Each handler takes the settled `Outcome` as an argument and returns the request descriptor instead. A reply body that fails to parse is a rejection whose message is not "401", so it is modelled as `TransportError`.
- Navigation through react-router's `useNavigate` is an assignment to the `route` field; the router itself is not modelled.
- Local storage persistence across reloads: the token slot is a plain field, and the constructor takes whatever is stored at mount.
- Concurrency and timing. Handlers are modelled as settling one after another, so only their final states are captured. Two effects of the asynchrony are therefore not represented: `login` lowers the spinner (line 62) before its request settles, and overlapping handlers read a stale `articles` value (lines 117, 143, 177).
- `currentArticleId` (line 17): App.js only hands its setter to the children and never changes it itself.
- Decimal.IntToString: ids are unbounded integers in the model, while an `article_id` in JavaScript is a double-precision Number: it holds integers exactly only up to 2^53, and `${article_id}` switches to exponent form ("1e+21") from 10^21 on, which `ParseInt` rejects. The rendering is modelled for ids below 10^21 only.
- Identifiers are integers in the model. A JavaScript `===` or `!==` between a string id and a number id would never match; the model does not represent that case.
