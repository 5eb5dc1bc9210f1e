/**
 * What the hub and the device entities see of the web application: parsed pages,
 * the WebForms hidden fields on them, HTTP exchanges as scripted responses, and the
 * partial-postback form that simulates one button click.
 */
module Web {
  import opened Wrappers

  // ---------------------------------------------------------------------------
  // Parsed pages

  /** An HTML element located by its `id`; `value` is its value attribute, if it has one. */
  datatype Element = Element(value: Option<string>)

  /**
   * A parsed page: its serialised text (what `str(soup)` and `response.text` give)
   * and the elements that a lookup by id finds.
   */
  datatype Document = Document(text: string, byId: map<string, Element>)

  /** A form-encoded request body: field name to field value. */
  type Form = map<string, string>

  const VIEWSTATE := "__VIEWSTATE"
  const VIEWSTATE_GENERATOR := "__VIEWSTATEGENERATOR"
  const EVENT_VALIDATION := "__EVENTVALIDATION"

  /**
   * `tag["value"] if tag else ""` for the element with id `id`: the empty string when
   * there is no such element, None when the element has no value attribute (the
   * subscript raises KeyError).
   */
  function ValueOrEmpty(doc: Document, id: string): (r: Option<string>)
    ensures id !in doc.byId ==> r == Some("")
    ensures id in doc.byId ==> r == doc.byId[id].value
  {
    if id in doc.byId then doc.byId[id].value else Some("")
  }

  /** The three WebForms state tokens a postback must echo. */
  datatype FormTokens = FormTokens(viewstate: string, generator: string, validation: string)

  /**
   * Reads the state tokens of a page as the postback code does: None when the page has
   * no `__VIEWSTATE` element (it is not the expected page) or when one of the elements
   * read lacks a value attribute; a missing generator or validation element reads as "".
   */
  function ReadTokens(doc: Document): Option<FormTokens>
  {
    if VIEWSTATE !in doc.byId then None
    else
      match (doc.byId[VIEWSTATE].value, ValueOrEmpty(doc, VIEWSTATE_GENERATOR), ValueOrEmpty(doc, EVENT_VALIDATION))
      case (Some(v), Some(g), Some(e)) => Some(FormTokens(v, g, e))
      case _ => None
  }

  /** Whether every element the token reader looks at carries a value attribute. */
  predicate HasReadableTokens(doc: Document)
  {
    && VIEWSTATE in doc.byId
    && doc.byId[VIEWSTATE].value.Some?
    && (VIEWSTATE_GENERATOR in doc.byId ==> doc.byId[VIEWSTATE_GENERATOR].value.Some?)
    && (EVENT_VALIDATION in doc.byId ==> doc.byId[EVENT_VALIDATION].value.Some?)
  }

  /**
   * The reader yields tokens exactly for readable pages, never for a page without a
   * viewstate, and the tokens are the page's values with "" for absent optional fields.
   */
  lemma ReadTokensSpec(doc: Document)
    ensures ReadTokens(doc).Some? <==> HasReadableTokens(doc)
    ensures VIEWSTATE !in doc.byId ==> ReadTokens(doc) == None
    ensures ReadTokens(doc).Some? ==>
      && ReadTokens(doc).value.viewstate == doc.byId[VIEWSTATE].value.value
      && ReadTokens(doc).value.generator ==
           (if VIEWSTATE_GENERATOR in doc.byId then doc.byId[VIEWSTATE_GENERATOR].value.value else "")
      && ReadTokens(doc).value.validation ==
           (if EVENT_VALIDATION in doc.byId then doc.byId[EVENT_VALIDATION].value.value else "")
  {
  }

  // ---------------------------------------------------------------------------
  // Partial postback of one button click

  /**
   * The postback for a click on image button `btn` through the UpdatePanel: the echoed
   * tokens, the async flag, the script-manager target and the pseudo click coordinates.
   */
  function ButtonPostback(t: FormTokens, btn: string): Form
  {
    map[
      VIEWSTATE := t.viewstate,
      VIEWSTATE_GENERATOR := t.generator,
      EVENT_VALIDATION := t.validation,
      "__ASYNCPOST" := "true",
      "ScriptManager1" := "UpdatePanel1|" + btn,
      btn + ".x" := "30",
      btn + ".y" := "10"
    ]
  }

  /**
   * The click postback holds exactly the envelope fields: the echoed tokens, the async
   * flag, the script-manager target naming `btn`, and the click coordinates 30/10.
   */
  lemma ButtonPostbackSpec(t: FormTokens, btn: string)
    ensures var f := ButtonPostback(t, btn);
      && f.Keys == {VIEWSTATE, VIEWSTATE_GENERATOR, EVENT_VALIDATION, "__ASYNCPOST",
                    "ScriptManager1", btn + ".x", btn + ".y"}
      && f[VIEWSTATE] == t.viewstate
      && f[VIEWSTATE_GENERATOR] == t.generator
      && f[EVENT_VALIDATION] == t.validation
      && f["__ASYNCPOST"] == "true"
      && f["ScriptManager1"] == "UpdatePanel1|" + btn
      && f[btn + ".x"] == "30" && f[btn + ".y"] == "10"
  {
    assert (btn + ".x")[|btn + ".x"| - 1] == 'x';
    assert (btn + ".y")[|btn + ".y"| - 1] == 'y';
  }

  // ---------------------------------------------------------------------------
  // HTTP exchanges

  /** The decoded JSON body: an object with an optional "d" member, or anything else. */
  datatype Json = NotObject | Object(d: Option<string>)

  /** One HTTP response: status, final URL after redirects, parsed body, JSON view of the body. */
  datatype Response = Response(status: int, url: string, doc: Document, json: Json)

  /** The outcome of one request: a response, or a raised exception (network error, timeout). */
  datatype Exchange = Raised | Answer(response: Response)

  /** A request the hub issues. */
  datatype Request =
    | Get(url: string)
    | PostJson(url: string, id: string, pw: string)
    | PostForm(url: string, form: Form)

  /** The response to the next request; an exhausted script answers with a transport error. */
  function Head(script: seq<Exchange>): Exchange
  {
    if script == [] then Raised else script[0]
  }

  /** The script after one request has been answered. */
  function Tail(script: seq<Exchange>): (rest: seq<Exchange>)
    ensures script != [] ==> rest == script[1..]
  {
    if script == [] then [] else script[1..]
  }

  /** The script after `n` requests have been answered. */
  function Drop(script: seq<Exchange>, n: nat): (rest: seq<Exchange>)
    ensures |rest| == if n <= |script| then |script| - n else 0
  {
    if n <= |script| then script[n..] else []
  }

  lemma DropTail(script: seq<Exchange>, n: nat)
    ensures Drop(Tail(script), n) == Drop(script, n + 1)
  {
  }

  lemma AppendAssoc(a: seq<Request>, b: seq<Request>, c: seq<Request>)
    ensures (a + b) + c == a + (b + c)
  {
  }

  /**
   * An operation's outcome over a response script: its result, the requests it issued
   * (in order), and the responses still unanswered.
   */
  datatype Run<T> = Run(value: T, sent: seq<Request>, rest: seq<Exchange>)
}
