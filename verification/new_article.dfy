/** The new-article page (src/app/articles/new/page.tsx): the title and
    content rules and the submit handler. The form library's rules count
    length in characters; the text area's `maxLength` counts UTF-16 code
    units. */
module NewArticle {
  import opened Wrappers
  import opened BrowserTab
  import opened AxiosClient
  import opened ApiMethods
  import opened ApiServices
  import opened Forms
  import Routes
  import FormSchema

  datatype ArticleForm = ArticleForm(title: string, content: string)

  const TitleRequiredMsg: string := "Please enter article title"
  const TitleMinMsg: string := "Title must be at least 5 characters"
  /** The limit enforced is 50, but the message announces 200. */
  const TitleMaxMsg: string := "Title must not exceed 200 characters"
  const ContentRequiredMsg: string := "Please enter article content"
  const ContentMinMsg: string := "Content must be at least 50 characters"
  const TitleMin: nat := 5
  const TitleMax: nat := 50
  const ContentMin: nat := 50
  /** The text area's `maxLength`, in UTF-16 code units. */
  const ContentCap: nat := 10000

  const CreatedMsg: string := "Article created successfully"
  const CreateFailedMsg: string := "Failed to create article"

  /** The title rules. A rule that is not `required` is skipped for an empty
      value, so an empty title reports only the required message. */
  function TitleErrors(t: string): (r: seq<string>)
    ensures r == [] <==> TitleMin <= |t| <= TitleMax
    ensures t == "" ==> r == [TitleRequiredMsg]
    ensures t != "" ==> (TitleMinMsg in r <==> |t| < TitleMin) && (TitleMaxMsg in r <==> |t| > TitleMax)
  {
    if t == "" then [TitleRequiredMsg]
    else (if |t| < TitleMin then [TitleMinMsg] else []) + (if |t| > TitleMax then [TitleMaxMsg] else [])
  }

  function ContentErrors(c: string): (r: seq<string>)
    ensures r == [] <==> |c| >= ContentMin
    ensures c == "" ==> r == [ContentRequiredMsg]
    ensures c != "" && |c| < ContentMin ==> r == [ContentMinMsg]
  {
    if c == "" then [ContentRequiredMsg]
    else if |c| < ContentMin then [ContentMinMsg]
    else []
  }

  /** The longest prefix of `s`, in whole characters, whose UTF-16 length
      stays within `budget`. */
  function Utf16Prefix(s: string, budget: nat): (r: string)
    ensures r <= s
    ensures FormSchema.Utf16Length(r) <= budget
    ensures FormSchema.Utf16Length(s) <= budget ==> r == s
    ensures |r| < |s| ==> FormSchema.Utf16Length(s[..|r| + 1]) > budget
    decreases |s|
  {
    if s == [] then []
    else if FormSchema.CodeUnits(s[0]) > budget then
      PrefixLength(s, 1);
      []
    else
      var t := Utf16Prefix(s[1..], budget - FormSchema.CodeUnits(s[0]));
      PrefixLength([s[0]] + t, |t| + 1);
      PrefixLength(s, |t| + 2);
      [s[0]] + t
  }

  /** The code units of a non-empty prefix: its first character's, then the
      rest's. */
  lemma PrefixLength(s: string, k: nat)
    requires 0 < k
    ensures k <= |s| ==>
      FormSchema.Utf16Length(s[..k]) == FormSchema.CodeUnits(s[0]) + FormSchema.Utf16Length(s[1..][..k - 1])
  {
    if k <= |s| {
      assert s[..k][1..] == s[1..][..k - 1];
    }
  }

  /** What the text area holds after `typed` was entered: input beyond
      `maxLength` code units is not taken. */
  function ContentField(typed: string): (c: string)
    ensures FormSchema.Utf16Length(c) <= ContentCap
    ensures c <= typed
    ensures FormSchema.Utf16Length(typed) <= ContentCap ==> c == typed
    ensures |c| < |typed| ==> FormSchema.Utf16Length(typed[..|c| + 1]) > ContentCap
  {
    Utf16Prefix(typed, ContentCap)
  }

  /** The create payload: exactly title and content. */
  function Body(values: ArticleForm): Payload {
    ArticleBody(values.title, values.content)
  }

  /** `handleSubmit`: create, then announce and go to the list; or announce
      the failure. `loading` ends false on both paths. */
  function HandleSubmit(b: Browser, values: ArticleForm, outcome: Outcome<()>): (s: Step<ArticleForm>)
    ensures !s.view.loading && s.view.values == values
    ensures s.sent == Some(Invoke(b, CreateArticle(Body(values)), outcome).request)
    ensures outcome.Resolved? ==>
      s.browser == Notify(Navigate(b, Routes.ProtectedLanding), Good, CreatedMsg)
    ensures outcome.Rejected? ==>
      s.browser == Notify(Intercept(b, outcome).0, Bad, CreateFailedMsg)
  {
    var x := Invoke(b, CreateArticle(Body(values)), outcome);
    match x.result
    case Success(_) =>
      Step(Navigate(Notify(x.browser, Good, CreatedMsg), Routes.ProtectedLanding), FormView(values, false), Some(x.request))
    case Failure(_) =>
      Step(Notify(x.browser, Bad, CreateFailedMsg), FormView(values, false), Some(x.request))
  }

  /** The form calls the handler only once every rule passes. */
  function Finish(b: Browser, view: FormView<ArticleForm>, outcome: Outcome<()>): (s: Step<ArticleForm>)
    ensures s.sent.Some? <==> TitleMin <= |view.values.title| <= TitleMax && |view.values.content| >= ContentMin
    ensures s.sent.None? ==> s.browser == b && s.view == view
  {
    if TitleErrors(view.values.title) == [] && ContentErrors(view.values.content) == []
    then HandleSubmit(b, view.values, outcome)
    else Step(b, view, None)
  }

  /** A 51-character title is rejected with a message that names 200. */
  lemma TitleMessageMismatch(t: string)
    requires |t| == TitleMax + 1
    ensures TitleErrors(t) == [TitleMaxMsg]
  {
  }

  /** A failure other than a 401 leaves the route where it was. */
  lemma FailureKeepsRoute(b: Browser, values: ArticleForm, response: Option<ErrorResponse>)
    requires !IsUnauthorized<()>(Rejected(response))
    ensures HandleSubmit(b, values, Rejected(response)).browser.route == b.route
    ensures HandleSubmit(b, values, Rejected(response)).browser.store == b.store
  {
  }

  /** Content that survives the cap passes the length rule exactly when at
      least 50 characters were typed: a cut text keeps at least 5000
      characters. */
  lemma CappedContentAccepted(typed: string)
    ensures ContentErrors(ContentField(typed)) == [] <==> |typed| >= ContentMin
  {
  }

  /** The create request: a post of exactly the title and the content to
      the articles path. */
  lemma SentRequest(b: Browser, values: ArticleForm, outcome: Outcome<()>)
    ensures var r := HandleSubmit(b, values, outcome).sent;
            r.Some? && r.value.url == "api/v1/articles/" && r.value.verb == Post
            && r.value.params.None? && r.value.body == Some(ArticleBody(values.title, values.content))
  {
  }
}
