/** Everything of one browser tab that the client's handlers read or write:
    whether a `window` exists (false while rendering on the server), the
    store, the current route, the notices shown so far, and a count of full
    page loads (an assignment to `window.location.href` reloads the page and
    with it every piece of component state). */
module BrowserTab {
  import opened Storage

  datatype Tone = Good | Bad

  /** A user-visible notice (`toast.success`, `message.error`, ...). */
  datatype Notice = Notice(tone: Tone, text: string)

  datatype Browser = Browser(
    hasWindow: bool,
    store: Store,
    route: string,
    notices: seq<Notice>,
    loads: nat)

  /** `checkAuthToken` (src/components/childLayout.tsx and
      src/context/authContext.tsx define it identically): a token counts only
      when there is a window and the stored value is truthy. */
  function CheckAuthToken(b: Browser): (r: bool)
    ensures !b.hasWindow ==> !r
    ensures b.hasWindow ==> (r <==> TokenKey in b.store && b.store[TokenKey] != Text(""))
  {
    b.hasWindow && TokenKey in b.store && IsTruthy(b.store[TokenKey])
  }

  /** Client-side navigation (`router.push` / `router.replace`). */
  function Navigate(b: Browser, path: string): (r: Browser)
    ensures r.route == path
    ensures r.(route := b.route) == b
  {
    b.(route := path)
  }

  /** `window.location.href = path`: a full page load. */
  function HardNavigate(b: Browser, path: string): (r: Browser)
    ensures r.route == path && r.loads == b.loads + 1
    ensures r.store == b.store && r.notices == b.notices && r.hasWindow == b.hasWindow
  {
    b.(route := path, loads := b.loads + 1)
  }

  function Notify(b: Browser, tone: Tone, text: string): (r: Browser)
    ensures r.notices == b.notices + [Notice(tone, text)]
    ensures r.(notices := b.notices) == b
  {
    b.(notices := b.notices + [Notice(tone, text)])
  }

  /** The token check reads nothing but the window flag and the "token" key. */
  lemma CheckAuthTokenReadsOnlyToken(b: Browser, b': Browser)
    requires b.hasWindow == b'.hasWindow
    requires (TokenKey in b.store) == (TokenKey in b'.store)
    requires TokenKey in b.store ==> b.store[TokenKey] == b'.store[TokenKey]
    ensures CheckAuthToken(b) == CheckAuthToken(b')
  {
  }
}
