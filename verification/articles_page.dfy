/** The article list page (src/components/articles/articlePage.tsx): the
    search filter, the owner-only actions, and the fetch and delete
    handlers. Lower-casing covers ASCII letters only. */
module ArticlesPage {
  import opened Wrappers
  import opened Storage
  import opened BrowserTab
  import opened AxiosClient
  import opened ApiMethods
  import opened ApiServices

  /** A listed article as the page reads it, including the `author` record
      the table renders. */
  datatype Article = Article(id: string, title: string, content: string, createdBy: string, author: User)

  /** The list endpoint's reply body: `{ data: Article[] }`. */
  datatype ArticlesReply = ArticlesReply(data: seq<Article>)

  /** The page's own state. */
  datatype View = View(articles: seq<Article>, loading: bool, searchText: string)

  /** One handler run: the tab and page afterwards, and the requests sent in
      order. */
  datatype PageStep = PageStep(browser: Browser, view: View, sent: seq<Request>)

  const FetchFailedMsg: string := "Failed to fetch articles"
  const DeletedMsg: string := "Article deleted successfully"
  const DeleteFailedMsg: string := "Failed to delete article"

  // ---------------------------------------------------------------------
  // Search filter

  function LowerChar(c: char): (d: char)
    ensures 'A' <= c <= 'Z' ==> d as int == c as int + 32
    ensures !('A' <= c <= 'Z') ==> d == c
    ensures !('A' <= d <= 'Z')
  {
    if 'A' <= c <= 'Z' then (c as int + 32) as char else c
  }

  /** `toLowerCase` restricted to ASCII. */
  function Lower(s: string): (r: string)
    ensures |r| == |s|
    ensures forall i :: 0 <= i < |s| ==> r[i] == LowerChar(s[i])
  {
    seq(|s|, i requires 0 <= i < |s| => LowerChar(s[i]))
  }

  /** `hay.includes(needle)`: the needle occurs at some position. */
  function Includes(hay: string, needle: string): (r: bool)
    ensures r <==> exists i :: 0 <= i <= |hay| && StartsWith(hay[i..], needle)
    decreases |hay|
  {
    if StartsWith(hay, needle) then
      assert hay[0..] == hay;
      true
    else if hay == [] then false
    else
      var r := Includes(hay[1..], needle);
      assert forall i :: 1 <= i <= |hay| ==> hay[1..][i - 1..] == hay[i..];
      r
  }

  /** The filter's test for one article. */
  predicate Matches(a: Article, searchText: string) {
    var q := Lower(searchText);
    Includes(Lower(a.title), q) || Includes(Lower(a.content), q) || Includes(Lower(a.createdBy), q)
  }

  /** `filteredArticles`: the articles that match, in their original order. */
  function Filter(articles: seq<Article>, searchText: string): (r: seq<Article>)
    ensures |r| <= |articles|
    ensures forall i :: 0 <= i < |r| ==> Matches(r[i], searchText)
    ensures forall a :: a in r ==> a in articles
    ensures forall i :: 0 <= i < |articles| && Matches(articles[i], searchText) ==> articles[i] in r
  {
    if articles == [] then []
    else
      var rest := Filter(articles[1..], searchText);
      assert forall i :: 1 <= i < |articles| ==> articles[i] == articles[1..][i - 1];
      if Matches(articles[0], searchText) then [articles[0]] + rest else rest
  }

  /** The filter keeps every occurrence of a matching article and none of
      any other. */
  lemma {:induction false} FilterCounts(articles: seq<Article>, searchText: string)
    ensures forall a :: multiset(Filter(articles, searchText))[a]
                     == (if Matches(a, searchText) then multiset(articles)[a] else 0)
    decreases |articles|
  {
    if articles != [] {
      FilterCounts(articles[1..], searchText);
      assert articles == [articles[0]] + articles[1..];
      assert multiset(articles) == multiset{articles[0]} + multiset(articles[1..]);
    }
  }

  /** Filtering a concatenation filters each part: every occurrence of a
      matching article is kept where it was. */
  lemma {:induction false} FilterAppend(xs: seq<Article>, ys: seq<Article>, searchText: string)
    ensures Filter(xs + ys, searchText) == Filter(xs, searchText) + Filter(ys, searchText)
    decreases |xs|
  {
    if xs == [] {
      assert xs + ys == ys;
    } else {
      var zs := xs + ys;
      assert zs[0] == xs[0] && zs[1..] == xs[1..] + ys;
      FilterAppend(xs[1..], ys, searchText);
      if Matches(xs[0], searchText) {
        calc {
          Filter(zs, searchText);
          [xs[0]] + Filter(xs[1..] + ys, searchText);
          [xs[0]] + (Filter(xs[1..], searchText) + Filter(ys, searchText));
          ([xs[0]] + Filter(xs[1..], searchText)) + Filter(ys, searchText);
        }
      }
    }
  }

  /** `sub` can be obtained from `s` by deleting elements. */
  predicate IsSubsequence<T(==)>(sub: seq<T>, s: seq<T>)
    decreases |s|
  {
    if sub == [] then true
    else if s == [] then false
    else if sub[0] == s[0] then IsSubsequence(sub[1..], s[1..])
    else IsSubsequence(sub, s[1..])
  }

  lemma {:induction false} SubsequenceOfTail<T>(sub: seq<T>, s: seq<T>)
    requires |s| > 0 && IsSubsequence(sub, s[1..])
    ensures IsSubsequence(sub, s)
    decreases |s|, 0
  {
    if sub != [] && sub[0] == s[0] {
      assert IsSubsequence(sub[1..], s[1..]) by {
        SubsequenceDropHead(sub, s[1..]);
      }
    }
  }

  lemma {:induction false} SubsequenceDropHead<T>(sub: seq<T>, s: seq<T>)
    requires sub != [] && IsSubsequence(sub, s)
    ensures IsSubsequence(sub[1..], s)
    decreases |s|, 1
  {
    if sub[0] == s[0] {
      if sub[1..] != [] {
        SubsequenceOfTail(sub[1..], s);
      }
    } else {
      SubsequenceDropHead(sub, s[1..]);
      if sub[1..] != [] {
        SubsequenceOfTail(sub[1..], s);
      }
    }
  }

  /** The filtered list is a subsequence of the list: order is kept. */
  lemma {:induction false} FilterIsSubsequence(articles: seq<Article>, searchText: string)
    ensures IsSubsequence(Filter(articles, searchText), articles)
  {
    if articles != [] {
      FilterIsSubsequence(articles[1..], searchText);
      var rest := Filter(articles[1..], searchText);
      if Matches(articles[0], searchText) {
        assert ([articles[0]] + rest)[1..] == rest;
      } else {
        SubsequenceOfTail(rest, articles);
      }
    }
  }

  /** Filtering twice with the same text is filtering once. */
  lemma {:induction false} FilterIdempotent(articles: seq<Article>, searchText: string)
    ensures Filter(Filter(articles, searchText), searchText) == Filter(articles, searchText)
  {
    if articles != [] {
      FilterIdempotent(articles[1..], searchText);
      var rest := Filter(articles[1..], searchText);
      if Matches(articles[0], searchText) {
        assert ([articles[0]] + rest)[1..] == rest;
      }
    }
  }

  /** The empty search text keeps every article. */
  lemma {:induction false} EmptySearchKeepsAll(articles: seq<Article>)
    ensures Filter(articles, "") == articles
  {
    if articles != [] {
      var a := articles[0];
      assert StartsWith(Lower(a.title), Lower(""));
      EmptySearchKeepsAll(articles[1..]);
    }
  }

  lemma LowerIdempotent(s: string)
    ensures Lower(Lower(s)) == Lower(s)
  {
  }

  /** The search text matters only through its lower-case form. */
  lemma {:induction false} FilterSeesLowercaseOnly(articles: seq<Article>, searchText: string)
    ensures Filter(articles, searchText) == Filter(articles, Lower(searchText))
  {
    LowerIdempotent(searchText);
    if articles != [] {
      FilterSeesLowercaseOnly(articles[1..], searchText);
    }
  }

  /** Every article the filter drops matches nowhere: it is kept exactly
      when it matches. */
  lemma FilterKeepsExactlyMatches(articles: seq<Article>, searchText: string, a: Article)
    requires a in articles
    ensures a in Filter(articles, searchText) <==> Matches(a, searchText)
  {
  }

  // ---------------------------------------------------------------------
  // Owner-only actions

  /** Why rendering the actions column can throw. */
  datatype Crash = InvalidJson | NoLoggedUser

  /** `userString ? JSON.parse(userString) : null`. Text other than a
      stringified user record is treated as unparsable. */
  function LoggedUser(store: Store): (r: Result<Option<User>, Crash>)
    ensures AuthUserKey !in store ==> r == Success(None)
    ensures AuthUserKey in store && store[AuthUserKey].UserJson? ==> r == Success(Some(store[AuthUserKey].user))
    ensures r.Success? && r.value.Some? ==> AuthUserKey in store && store[AuthUserKey] == UserJson(r.value.value)
  {
    match GetItem(store, AuthUserKey)
    case None => Success(None)
    case Some(Text(t)) => if t == "" then Success(None) else Failure(InvalidJson)
    case Some(UserJson(u)) => Success(Some(u))
  }

  /** Edit, history and delete are offered only for the logged-in user's own
      articles; with no logged-in user, reading its `id` throws. */
  function OwnerActions(record: Article, logged: Option<User>): (r: Result<bool, Crash>)
    ensures r.Failure? <==> logged.None?
    ensures r == Success(true) <==> logged.Some? && record.author.id == logged.value.id
  {
    match logged
    case None => Failure(NoLoggedUser)
    case Some(u) => Success(record.author.id == u.id)
  }

  // ---------------------------------------------------------------------
  // Handlers

  /** `fetchArticles`: replace the list on success; on failure keep it and
      announce. `loading` ends false. */
  function Fetch(b: Browser, view: View, outcome: Outcome<ArticlesReply>): (s: PageStep)
    ensures !s.view.loading && s.view.searchText == view.searchText
    ensures s.sent == [Invoke(b, GetAllArticles, outcome).request]
    ensures outcome.Resolved? ==> s.view.articles == outcome.data.data && s.browser == b
    ensures outcome.Rejected? ==>
      s.view.articles == view.articles
      && s.browser == Notify(Intercept(b, outcome).0, Bad, FetchFailedMsg)
  {
    var x := Invoke(b, GetAllArticles, outcome);
    match x.result
    case Success(reply) => PageStep(x.browser, view.(articles := reply.data, loading := false), [x.request])
    case Failure(_) => PageStep(Notify(x.browser, Bad, FetchFailedMsg), view.(loading := false), [x.request])
  }

  /** `handleDelete`: on success announce and fetch again; on failure keep
      the list and show both the fixed notice and the error's message. */
  function HandleDelete(b: Browser, view: View, id: string, outcome: Outcome<()>,
                  refetch: Outcome<ArticlesReply>): (s: PageStep)
    ensures |s.sent| >= 1 && s.sent[0] == Invoke(b, DeleteArticle(id), outcome).request
    ensures s.sent[0].verb == Delete && s.sent[0].url == "api/v1/articles/" + id + "/"
    ensures outcome.Resolved? ==>
      |s.sent| == 2 && s.sent[1].verb == Get && s.sent[1].url == "api/v1/articles"
      && (refetch.Resolved? ==> s.view.articles == refetch.data.data)
      && (refetch.Rejected? ==> s.view.articles == view.articles)
    ensures outcome.Rejected? ==>
      s.view == view && |s.sent| == 1
      && s.browser.notices == Intercept(b, outcome).0.notices
           + [Notice(Bad, DeleteFailedMsg), Notice(Bad, ErrorMessage(outcome.response))]
  {
    var x := Invoke(b, DeleteArticle(id), outcome);
    match x.result
    case Success(_) =>
      var f := Fetch(Notify(x.browser, Good, DeletedMsg), view, refetch);
      f.(sent := [x.request] + f.sent)
    case Failure(msg) =>
      PageStep(Notify(Notify(x.browser, Bad, DeleteFailedMsg), Bad, msg), view, [x.request])
  }

  /** After a sign-in that stored `user`, the owner actions appear on exactly
      that user's articles. */
  lemma OwnerAfterSignIn(store: Store, user: User, record: Article)
    ensures OwnerActions(record, LoggedUser(store[AuthUserKey := UserJson(user)]).value)
         == Success(record.author.id == user.id)
  {
  }
}
