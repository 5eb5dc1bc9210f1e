/**
 * The session client of the integration: a two-phase login against the ASP.NET
 * WebForms site, page retrieval with transparent re-login, and command postbacks
 * with one retry after a session expiry.
 *
 * The HTTP session is replaced by a script of responses: each request the hub issues
 * is logged in `sent` and answered by the next scripted `Exchange`. The functions
 * `LoginRun`, `GetSoupRun` and `SendCommandRun` describe each operation over a script;
 * the `SmartWebHub` methods are proved to behave as they say, and the lemmas below
 * state what the session protocol promises.
 */
module Hub {
  import opened Wrappers
  import opened Text
  import opened Web

  /** The immutable connection parameters of one hub. */
  datatype Credentials = Credentials(host: string, username: string, password: string)

  /** Final URLs containing this text are the login page: the session has expired. */
  const LOGIN_PAGE := "Default.aspx"
  /** The login postback's success marker, which also signals expiry on a command postback. */
  const PAGE_REDIRECT := "pageRedirect"

  function LoginUrl(host: string): string
  {
    host + "/SmartWeb/Default.aspx"
  }

  function ServiceUrl(host: string): string
  {
    host + "/SmartWeb/_WebService/WizWeb_Svc.asmx/Login"
  }

  /** A pre-login token is usable when it is non-empty and not an HTML error fragment. */
  predicate TokenUsable(d: Option<string>)
  {
    d.Some? && d.value != "" && '>' !in d.value
  }

  /**
   * The login postback built from the login page, the pre-login token and the
   * credentials; None when an element read from the page lacks a value attribute.
   */
  function LoginForm(page: Document, token: string, c: Credentials): Option<Form>
  {
    match ReadTokens(page)
    case None => None
    case Some(t) =>
      Some(map[
        "scriptmanager1" := "UpdatePanel1|btnLogin",
        "__EVENTTARGET" := "btnLogin",
        "__EVENTARGUMENT" := "",
        VIEWSTATE := t.viewstate,
        VIEWSTATE_GENERATOR := t.generator,
        EVENT_VALIDATION := t.validation,
        "txtID" := c.username,
        "txtPW" := c.password,
        "Hidden2" := "1",
        "Hidden1" := token,
        "__ASYNCPOST" := "true"
      ])
  }

  /**
   * The login postback exists exactly when the page's tokens are readable; it carries
   * the pre-login token, the page's tokens (with "" for an absent generator or
   * validation element), the credentials and the fixed login fields.
   */
  lemma LoginFormSpec(page: Document, token: string, c: Credentials)
    ensures var f := LoginForm(page, token, c);
      && (f.Some? <==> HasReadableTokens(page))
      && (f.Some? ==>
        && f.value.Keys == {"scriptmanager1", "__EVENTTARGET", "__EVENTARGUMENT", VIEWSTATE,
                            VIEWSTATE_GENERATOR, EVENT_VALIDATION, "txtID", "txtPW", "Hidden2",
                            "Hidden1", "__ASYNCPOST"}
        && f.value["Hidden1"] == token
        && f.value[VIEWSTATE] == page.byId[VIEWSTATE].value.value
        && f.value[VIEWSTATE_GENERATOR] == ReadTokens(page).value.generator
        && f.value[EVENT_VALIDATION] == ReadTokens(page).value.validation
        && f.value["txtID"] == c.username && f.value["txtPW"] == c.password
        && f.value["__EVENTTARGET"] == "btnLogin" && f.value["Hidden2"] == "1"
        && f.value["__ASYNCPOST"] == "true")
  {
    ReadTokensSpec(page);
  }

  /**
   * The login sequence over a script: GET the login page, POST the JSON pre-login,
   * POST the login form; every failed step ends the sequence with false.
   */
  function LoginRun(c: Credentials, script: seq<Exchange>): Run<bool>
  {
    var page := Head(script);
    var afterPage := Tail(script);
    var sentPage := [Get(LoginUrl(c.host))];
    if page.Raised? || VIEWSTATE !in page.response.doc.byId then
      Run(false, sentPage, afterPage)
    else
      var svc := Head(afterPage);
      var afterSvc := Tail(afterPage);
      var sentSvc := sentPage + [PostJson(ServiceUrl(c.host), c.username, c.password)];
      if svc.Raised? || svc.response.status != 200 || svc.response.json.NotObject?
         || !TokenUsable(svc.response.json.d) then
        Run(false, sentSvc, afterSvc)
      else
        match LoginForm(page.response.doc, svc.response.json.d.value, c)
        case None => Run(false, sentSvc, afterSvc)
        case Some(form) =>
          var post := Head(afterSvc);
          Run(post.Answer? && post.response.status == 200 && Contains(post.response.doc.text, PAGE_REDIRECT),
              sentSvc + [PostForm(LoginUrl(c.host), form)],
              Tail(afterSvc))
  }

  /** A response shows an expired session when its final URL is the login page. */
  predicate LandsOnLogin(x: Exchange)
  {
    x.Answer? && Contains(x.response.url, LOGIN_PAGE)
  }

  /**
   * Page retrieval over a script: GET `url`; if that lands on the login page although
   * `url` is not the login page, log in once and GET once more.
   */
  function GetSoupRun(c: Credentials, url: string, script: seq<Exchange>): Run<Option<Document>>
  {
    var first := Head(script);
    var afterFirst := Tail(script);
    if first.Raised? then
      Run(None, [Get(url)], afterFirst)
    else if LandsOnLogin(first) && !Contains(url, LOGIN_PAGE) then
      var login := LoginRun(c, afterFirst);
      if !login.value then
        Run(None, [Get(url)] + login.sent, login.rest)
      else
        var again := Head(login.rest);
        Run(if again.Raised? || LandsOnLogin(again) then None else Some(again.response.doc),
            [Get(url)] + login.sent + [Get(url)],
            Tail(login.rest))
    else
      Run(Some(first.response.doc), [Get(url)], afterFirst)
  }

  /** A command response shows an expired session by the redirect marker or a login-page URL. */
  predicate ShowsExpiry(r: Response)
  {
    Contains(r.doc.text, PAGE_REDIRECT) || Contains(r.url, LOGIN_PAGE)
  }

  /**
   * Command submission over a script: POST the form; on a sign of expiry log in once
   * and, if that succeeds, POST the same form once more. The result is whether the
   * last response has status 200.
   */
  function SendCommandRun(c: Credentials, url: string, form: Form, script: seq<Exchange>): Run<bool>
  {
    var first := Head(script);
    var afterFirst := Tail(script);
    if first.Raised? then
      Run(false, [PostForm(url, form)], afterFirst)
    else if ShowsExpiry(first.response) then
      var login := LoginRun(c, afterFirst);
      if login.value then
        var again := Head(login.rest);
        Run(again.Answer? && again.response.status == 200,
            [PostForm(url, form)] + login.sent + [PostForm(url, form)],
            Tail(login.rest))
      else
        Run(first.response.status == 200, [PostForm(url, form)] + login.sent, login.rest)
    else
      Run(first.response.status == 200, [PostForm(url, form)], afterFirst)
  }

  /** The hub: fixed connection parameters and a session over a script of responses. */
  class SmartWebHub {
    const host: string
    const username: string
    const password: string
    /** Responses the server will give to the next requests, in order. */
    var responses: seq<Exchange>
    /** Every request issued so far, in order. */
    var sent: seq<Request>

    /** The hub keeps the host without trailing slashes. */
    constructor (host: string, username: string, password: string, server: seq<Exchange>)
      ensures this.host == RStrip(host, '/')
      ensures this.username == username && this.password == password
      ensures responses == server && sent == []
    {
      this.host := RStrip(host, '/');
      this.username := username;
      this.password := password;
      responses := server;
      sent := [];
    }

    function Cred(): Credentials
    {
      Credentials(host, username, password)
    }

    /** One HTTP exchange on the session. */
    method Transact(req: Request) returns (x: Exchange)
      modifies this
      ensures sent == old(sent) + [req]
      ensures x == Head(old(responses)) && responses == Tail(old(responses))
    {
      sent := sent + [req];
      if responses == [] {
        x := Raised;
      } else {
        x := responses[0];
        responses := responses[1..];
      }
    }

    method Login() returns (ok: bool)
      modifies this
      ensures var r := LoginRun(Cred(), old(responses));
        ok == r.value && sent == old(sent) + r.sent && responses == r.rest
    {
      var loginUrl := LoginUrl(host);
      var page := Transact(Get(loginUrl));
      if page.Raised? {
        return false;
      }
      if VIEWSTATE !in page.response.doc.byId {
        return false;
      }
      var svc := Transact(PostJson(ServiceUrl(host), username, password));
      if svc.Raised? || svc.response.status != 200 {
        return false;
      }
      if svc.response.json.NotObject? {
        return false;
      }
      var token := svc.response.json.d;
      if token.None? || token.value == "" || '>' in token.value {
        return false;
      }
      var form := LoginForm(page.response.doc, token.value, Cred());
      if form.None? {
        return false;
      }
      var post := Transact(PostForm(loginUrl, form.value));
      if post.Answer? && post.response.status == 200 && Contains(post.response.doc.text, PAGE_REDIRECT) {
        return true;
      }
      return false;
    }

    method TestConnection() returns (ok: bool)
      modifies this
      ensures var r := LoginRun(Cred(), old(responses));
        ok == r.value && sent == old(sent) + r.sent && responses == r.rest
    {
      ok := Login();
    }

    method GetSoup(url: string) returns (doc: Option<Document>)
      modifies this
      ensures var r := GetSoupRun(Cred(), url, old(responses));
        doc == r.value && sent == old(sent) + r.sent && responses == r.rest
    {
      var r := Transact(Get(url));
      if r.Raised? {
        return None;
      }
      if Contains(r.response.url, LOGIN_PAGE) && !Contains(url, LOGIN_PAGE) {
        var ok := Login();
        if ok {
          r := Transact(Get(url));
          if r.Raised? || Contains(r.response.url, LOGIN_PAGE) {
            return None;
          }
        } else {
          return None;
        }
      }
      return Some(r.response.doc);
    }

    method SendCommand(url: string, form: Form) returns (ok: bool)
      modifies this
      ensures var r := SendCommandRun(Cred(), url, form, old(responses));
        ok == r.value && sent == old(sent) + r.sent && responses == r.rest
    {
      var r := Transact(PostForm(url, form));
      if r.Raised? {
        return false;
      }
      if Contains(r.response.doc.text, PAGE_REDIRECT) || Contains(r.response.url, LOGIN_PAGE) {
        var loggedIn := Login();
        if loggedIn {
          r := Transact(PostForm(url, form));
          if r.Raised? {
            return false;
          }
        }
      }
      return r.response.status == 200;
    }
  }

  // ---------------------------------------------------------------------------
  // Properties of the login sequence

  /**
   * The login succeeds exactly when the first three responses are: a login page with
   * readable tokens, a 200 pre-login answer carrying a usable token, and a 200 form
   * answer whose body contains the redirect marker.
   */
  predicate LoginAccepted(script: seq<Exchange>)
  {
    && |script| >= 3
    && script[0].Answer? && HasReadableTokens(script[0].response.doc)
    && script[1].Answer? && script[1].response.status == 200
    && script[1].response.json.Object? && TokenUsable(script[1].response.json.d)
    && script[2].Answer? && script[2].response.status == 200
    && Contains(script[2].response.doc.text, PAGE_REDIRECT)
  }

  lemma LoginTrueIff(c: Credentials, script: seq<Exchange>)
    ensures LoginRun(c, script).value <==> LoginAccepted(script)
  {
    var s1 := Tail(script);
    var s2 := Tail(s1);
    if |script| >= 3 {
      assert Head(script) == script[0] && Head(s1) == script[1] && Head(s2) == script[2];
      if Head(script).Answer? && VIEWSTATE in Head(script).response.doc.byId {
        if Head(s1).Answer? && Head(s1).response.status == 200 && Head(s1).response.json.Object?
           && TokenUsable(Head(s1).response.json.d) {
          LoginFormSpec(script[0].response.doc, Head(s1).response.json.d.value, c);
        }
      }
    } else {
      assert Head(script).Raised? || Head(s1).Raised? || Head(s2).Raised?;
    }
  }

  /** Each request consumes exactly one scripted response. */
  lemma LoginConsumes(c: Credentials, script: seq<Exchange>)
    ensures LoginRun(c, script).rest == Drop(script, |LoginRun(c, script).sent|)
  {
    DropTail(script, 0);
    DropTail(Tail(script), 0);
    DropTail(script, 1);
    DropTail(Tail(Tail(script)), 0);
    DropTail(Tail(script), 1);
    DropTail(script, 2);
  }

  /**
   * The requests of a login are, in order, a GET of the login page, the JSON pre-login
   * and the form POST; the sequence may stop after any of them.
   */
  lemma LoginRequests(c: Credentials, script: seq<Exchange>)
    ensures var r := LoginRun(c, script);
      && 1 <= |r.sent| <= 3
      && r.sent[0] == Get(LoginUrl(c.host))
      && (|r.sent| >= 2 ==> r.sent[1] == PostJson(ServiceUrl(c.host), c.username, c.password))
      && (|r.sent| == 3 ==> r.sent[2].PostForm? && r.sent[2].url == LoginUrl(c.host))
      && (r.value ==> |r.sent| == 3)
  {
  }

  /** Without a `__VIEWSTATE` on the login page, the login fails and posts nothing. */
  lemma LoginNeedsViewstate(c: Credentials, script: seq<Exchange>)
    requires Head(script).Raised? || VIEWSTATE !in Head(script).response.doc.byId
    ensures LoginRun(c, script) == Run(false, [Get(LoginUrl(c.host))], Tail(script))
  {
  }

  /**
   * A pre-login answer that is not exactly 200 or carries no usable token ends the
   * login with false before the form is posted.
   */
  lemma LoginNeedsToken(c: Credentials, script: seq<Exchange>)
    requires |script| >= 2 && script[0].Answer? && VIEWSTATE in script[0].response.doc.byId
    requires script[1].Answer?
    requires script[1].response.status != 200
             || script[1].response.json.NotObject?
             || !TokenUsable(script[1].response.json.d)
    ensures !LoginRun(c, script).value
    ensures LoginRun(c, script).sent
            == [Get(LoginUrl(c.host)), PostJson(ServiceUrl(c.host), c.username, c.password)]
  {
  }

  /**
   * When the form is posted, it carries the pre-login token, the page's viewstate and
   * the credentials, with the fixed login fields.
   */
  lemma LoginPostsForm(c: Credentials, script: seq<Exchange>)
    requires |LoginRun(c, script).sent| == 3
    ensures var form := LoginRun(c, script).sent[2].form;
      && script[1].response.json.Object?
      && form["Hidden1"] == script[1].response.json.d.value
      && form[VIEWSTATE] == script[0].response.doc.byId[VIEWSTATE].value.value
      && form["txtID"] == c.username && form["txtPW"] == c.password
      && form["__EVENTTARGET"] == "btnLogin" && form["Hidden2"] == "1" && form["__ASYNCPOST"] == "true"
  {
    LoginFormSpec(script[0].response.doc, script[1].response.json.d.value, c);
  }

  /** Logging in twice against a server that accepts both times succeeds twice. */
  lemma {:induction false} LoginTwice(c: Credentials, first: seq<Exchange>, second: seq<Exchange>)
    requires |first| == 3 && LoginAccepted(first) && LoginAccepted(second)
    ensures LoginRun(c, first + second).value
    ensures LoginRun(c, first + second).rest == second
    ensures LoginRun(c, LoginRun(c, first + second).rest).value
  {
    var s := first + second;
    assert s[..3] == first;
    assert LoginAccepted(s);
    LoginTrueIff(c, s);
    LoginRequests(c, s);
    LoginConsumes(c, s);
    assert s[3..] == second;
    LoginTrueIff(c, second);
  }

  // ---------------------------------------------------------------------------
  // Properties of page retrieval

  lemma GetSoupConsumes(c: Credentials, url: string, script: seq<Exchange>)
    ensures GetSoupRun(c, url, script).rest == Drop(script, |GetSoupRun(c, url, script).sent|)
  {
    var t := Tail(script);
    DropTail(script, 0);
    if Head(script).Answer? {
      LoginConsumes(c, t);
      var login := LoginRun(c, t);
      var n := |login.sent|;
      DropTail(script, n);
      assert login.rest == Drop(script, n + 1);
      DropTail(Drop(t, n), 0);
      DropTail(script, n + 1);
      assert Tail(login.rest) == Drop(script, n + 2);
    }
  }

  /**
   * Page retrieval logs in at most once and repeats the GET at most once: its requests
   * are the GET, then possibly one login sequence, then possibly one more GET, the
   * latter only after a successful login.
   */
  lemma GetSoupRetriesOnce(c: Credentials, url: string, script: seq<Exchange>)
    ensures var r := GetSoupRun(c, url, script);
      var login := LoginRun(c, Tail(script));
      || r.sent == [Get(url)]
      || r.sent == [Get(url)] + login.sent
      || (login.value && r.sent == [Get(url)] + login.sent + [Get(url)])
    ensures |GetSoupRun(c, url, script).sent| <= 5
  {
    LoginRequests(c, Tail(script));
  }

  /** A login happens only when the first GET lands on the login page and `url` is not it. */
  lemma GetSoupReloginTrigger(c: Credentials, url: string, script: seq<Exchange>)
    ensures GetSoupRun(c, url, script).sent == [Get(url)]
            <==> !(LandsOnLogin(Head(script)) && !Contains(url, LOGIN_PAGE))
  {
    LoginRequests(c, Tail(script));
  }

  /** A document is returned exactly when the final GET answered and did not land on the login page. */
  lemma GetSoupResult(c: Credentials, url: string, script: seq<Exchange>)
    ensures var r := GetSoupRun(c, url, script);
      var expired := LandsOnLogin(Head(script)) && !Contains(url, LOGIN_PAGE);
      var login := LoginRun(c, Tail(script));
      && (Head(script).Raised? ==> r.value == None)
      && (Head(script).Answer? && !expired ==> r.value == Some(Head(script).response.doc))
      && (Head(script).Answer? && expired && !login.value ==> r.value == None)
      && (Head(script).Answer? && expired && login.value ==>
            r.value == (if Head(login.rest).Answer? && !LandsOnLogin(Head(login.rest))
                        then Some(Head(login.rest).response.doc) else None))
  {
  }

  /** An expired session whose retry lands on the login page again gives None, not a loop. */
  lemma GetSoupGivesUp(c: Credentials, url: string, script: seq<Exchange>)
    requires LandsOnLogin(Head(script)) && !Contains(url, LOGIN_PAGE)
    requires LoginRun(c, Tail(script)).value
    requires LandsOnLogin(Head(LoginRun(c, Tail(script)).rest))
    ensures GetSoupRun(c, url, script).value == None
    ensures |GetSoupRun(c, url, script).sent| == 5
  {
    LoginRequests(c, Tail(script));
  }

  // ---------------------------------------------------------------------------
  // Properties of command submission

  lemma SendCommandConsumes(c: Credentials, url: string, form: Form, script: seq<Exchange>)
    ensures SendCommandRun(c, url, form, script).rest
            == Drop(script, |SendCommandRun(c, url, form, script).sent|)
  {
    var t := Tail(script);
    DropTail(script, 0);
    if Head(script).Answer? && ShowsExpiry(Head(script).response) {
      LoginConsumes(c, t);
      var login := LoginRun(c, t);
      var n := |login.sent|;
      DropTail(script, n);
      assert login.rest == Drop(script, n + 1);
      if login.value {
        DropTail(Drop(t, n), 0);
        DropTail(script, n + 1);
        assert Tail(login.rest) == Drop(script, n + 2);
        assert SendCommandRun(c, url, form, script).rest == Tail(login.rest);
        assert |SendCommandRun(c, url, form, script).sent| == n + 2;
      } else {
        assert SendCommandRun(c, url, form, script).rest == login.rest;
        assert |SendCommandRun(c, url, form, script).sent| == n + 1;
      }
    }
  }

  /** Number of requests in `sent` that post `form` to `url`. */
  function CountPosts(sent: seq<Request>, url: string, form: Form): nat
  {
    if sent == [] then 0
    else CountPosts(sent[..|sent| - 1], url, form) + (if sent[|sent| - 1] == PostForm(url, form) then 1 else 0)
  }

  lemma {:induction false} CountPostsAppend(a: seq<Request>, b: seq<Request>, url: string, form: Form)
    ensures CountPosts(a + b, url, form) == CountPosts(a, url, form) + CountPosts(b, url, form)
    decreases |b|
  {
    if b == [] {
      assert a + b == a;
    } else {
      assert (a + b)[..|a + b| - 1] == a + b[..|b| - 1];
      CountPostsAppend(a, b[..|b| - 1], url, form);
    }
  }

  /**
   * A command is posted at most twice, and a second time only after the first response
   * showed expiry and the login succeeded. Otherwise the result is whether the first
   * response had status 200.
   */
  lemma {:induction false} SendCommandRetriesOnce(c: Credentials, url: string, form: Form, script: seq<Exchange>)
    requires url != LoginUrl(c.host)
    ensures var r := SendCommandRun(c, url, form, script);
      var login := LoginRun(c, Tail(script));
      var retried := Head(script).Answer? && ShowsExpiry(Head(script).response) && login.value;
      && 1 <= CountPosts(r.sent, url, form) <= 2
      && (CountPosts(r.sent, url, form) == 2 <==> retried)
      && (retried ==> r.value == (Head(login.rest).Answer? && Head(login.rest).response.status == 200))
      && (!retried ==> r.value == (Head(script).Answer? && Head(script).response.status == 200))
  {
    var r := SendCommandRun(c, url, form, script);
    var login := LoginRun(c, Tail(script));
    var post := [PostForm(url, form)];
    assert CountPosts(post, url, form) == 1 by {
      assert post[..0] == [];
    }
    LoginRequests(c, Tail(script));
    assert CountPosts(login.sent, url, form) == 0 by {
      LoginSentNoPost(login.sent, c, url, form);
    }
    if Head(script).Answer? && ShowsExpiry(Head(script).response) {
      CountPostsAppend(post, login.sent, url, form);
      if login.value {
        CountPostsAppend(post + login.sent, post, url, form);
      }
    }
  }

  /** The requests of a login never post to a URL other than the login page. */
  lemma {:induction false} LoginSentNoPost(sent: seq<Request>, c: Credentials, url: string, form: Form)
    requires url != LoginUrl(c.host)
    requires forall i :: 0 <= i < |sent| ==> !sent[i].PostForm? || sent[i].url == LoginUrl(c.host)
    ensures CountPosts(sent, url, form) == 0
    decreases |sent|
  {
    if sent != [] {
      LoginSentNoPost(sent[..|sent| - 1], c, url, form);
    }
  }

  /** A 200 response without signs of expiry is a success, and no login happens. */
  lemma SendCommandDirect(c: Credentials, url: string, form: Form, script: seq<Exchange>)
    requires Head(script).Answer? && !ShowsExpiry(Head(script).response)
    requires Head(script).response.status == 200
    ensures SendCommandRun(c, url, form, script) == Run(true, [PostForm(url, form)], Tail(script))
  {
  }

  /** If the re-login fails, the result is the status of the original response. */
  lemma SendCommandLoginFails(c: Credentials, url: string, form: Form, script: seq<Exchange>)
    requires Head(script).Answer? && ShowsExpiry(Head(script).response)
    requires !LoginRun(c, Tail(script)).value
    ensures SendCommandRun(c, url, form, script).value == (Head(script).response.status == 200)
    ensures SendCommandRun(c, url, form, script).sent == [PostForm(url, form)] + LoginRun(c, Tail(script)).sent
  {
  }
}
