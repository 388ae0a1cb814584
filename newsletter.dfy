/**
 * The newsletter dispatch function (ui/functions/newsletter/src/main.cjs):
 * a guard-clause decision over the request, then one email per listed
 * subscriber. The subscriber listing, the outcome of each send and the
 * configured password are inputs; the static pages are named, not read.
 */
module Newsletter {
  import opened Wrappers
  import Appwrite

  // ---------------------------------------------------------------------
  // ErrorCode and urlWithCodeParam
  // ---------------------------------------------------------------------

  const InvalidRequest: string := "invalid-request"
  const MissingFormFields: string := "missing-form-fields"
  const ServerError: string := "server-error"

  datatype Param = Param(name: string, value: string)

  /** A parsed URL: everything up to the query, and the query's pairs in order. */
  datatype Url = Url(base: string, query: seq<Param>)

  /** The pairs of q not named n, in order. */
  function WithoutName(q: seq<Param>, n: string): (r: seq<Param>)
    ensures forall k :: 0 <= k < |r| ==> r[k].name != n
    ensures |r| <= |q|
    decreases |q|
  {
    if q == [] then []
    else (if q[0].name == n then [] else [q[0]]) + WithoutName(q[1..], n)
  }

  /**
   * URLSearchParams.set: the first pair named n takes value v and every
   * later pair named n is dropped; with no such pair, one is appended.
   */
  function SetParam(q: seq<Param>, n: string, v: string): seq<Param>
    decreases |q|
  {
    if q == [] then [Param(n, v)]
    else if q[0].name == n then [Param(n, v)] + WithoutName(q[1..], n)
    else [q[0]] + SetParam(q[1..], n, v)
  }

  /** The values of the pairs named n, in order. */
  function Values(q: seq<Param>, n: string): seq<string>
    decreases |q|
  {
    if q == [] then []
    else (if q[0].name == n then [q[0].value] else []) + Values(q[1..], n)
  }

  lemma {:induction false} ValuesWithoutName(q: seq<Param>, n: string)
    ensures Values(WithoutName(q, n), n) == []
    decreases |q|
  {
    if q != [] {
      ValuesWithoutName(q[1..], n);
      var head := if q[0].name == n then [] else [q[0]];
      ValuesAppend(head, WithoutName(q[1..], n), n);
    }
  }

  lemma {:induction false} ValuesAppend(a: seq<Param>, b: seq<Param>, n: string)
    ensures Values(a + b, n) == Values(a, n) + Values(b, n)
    decreases |a|
  {
    if a == [] {
      assert a + b == b;
    } else {
      assert (a + b)[1..] == a[1..] + b;
      ValuesAppend(a[1..], b, n);
    }
  }

  lemma {:induction false} WithoutNameAppend(a: seq<Param>, b: seq<Param>, n: string)
    ensures WithoutName(a + b, n) == WithoutName(a, n) + WithoutName(b, n)
    decreases |a|
  {
    if a == [] {
      assert a + b == b;
    } else {
      assert (a + b)[1..] == a[1..] + b;
      WithoutNameAppend(a[1..], b, n);
    }
  }

  lemma {:induction false} WithoutNameTwice(q: seq<Param>, n: string)
    ensures WithoutName(WithoutName(q, n), n) == WithoutName(q, n)
    decreases |q|
  {
    if q != [] {
      WithoutNameTwice(q[1..], n);
      var head := if q[0].name == n then [] else [q[0]];
      WithoutNameAppend(head, WithoutName(q[1..], n), n);
    }
  }

  /**
   * After SetParam the query holds exactly one pair named n, whose value is
   * v, and every other pair is kept in its order.
   */
  lemma {:induction false} SetParamMeaning(q: seq<Param>, n: string, v: string)
    ensures Values(SetParam(q, n, v), n) == [v]
    ensures WithoutName(SetParam(q, n, v), n) == WithoutName(q, n)
    decreases |q|
  {
    if q == [] {
    } else if q[0].name == n {
      var rest := WithoutName(q[1..], n);
      ValuesAppend([Param(n, v)], rest, n);
      ValuesWithoutName(q[1..], n);
      WithoutNameAppend([Param(n, v)], rest, n);
      WithoutNameTwice(q[1..], n);
    } else {
      SetParamMeaning(q[1..], n, v);
      ValuesAppend([q[0]], SetParam(q[1..], n, v), n);
      WithoutNameAppend([q[0]], SetParam(q[1..], n, v), n);
    }
  }

  /** Setting twice is setting once to the later value. */
  lemma {:induction false} SetParamOverwrites(q: seq<Param>, n: string, v1: string, v2: string)
    ensures SetParam(SetParam(q, n, v1), n, v2) == SetParam(q, n, v2)
    decreases |q|
  {
    if q == [] {
    } else if q[0].name == n {
      WithoutNameTwice(q[1..], n);
    } else {
      SetParamOverwrites(q[1..], n, v1, v2);
    }
  }

  /** urlWithCodeParam, on a referer that parsed as a URL. */
  function UrlWithCodeParam(u: Url, code: string): (r: Url)
    ensures r.base == u.base
    ensures Values(r.query, "code") == [code]
    ensures WithoutName(r.query, "code") == WithoutName(u.query, "code")
  {
    SetParamMeaning(u.query, "code", code);
    Url(u.base, SetParam(u.query, "code", code))
  }

  // ---------------------------------------------------------------------
  // The handler
  // ---------------------------------------------------------------------

  /**
   * The request as the function sees it. The referer header is given
   * already parsed: None when it is missing or is not a URL, in which case
   * new URL(...) throws. The form is querystring.parse of the body: one
   * value for a key given once, several for a repeated key.
   */
  datatype Request = Request(
    httpMethod: string,
    path: string,
    headers: map<string, string>,
    referer: Option<Url>,
    form: map<string, seq<string>>)

  datatype EmailData = EmailData(from: string, to: seq<string>, subject: string, html: string)

  const Sender: string := "Crypto Talks <crypto@chiragaggarwal.tech>"
  const Subject: string := "Your Monthly Newsletter"
  const Html: string := "<h1>Welcome to our Newsletter!</h1><p>Here are the latest updates...</p>"

  datatype Response =
    | Page(file: string, status: int)
    | Redirect(url: Url)
      /** The handler threw: building the redirect URL from the referer failed. */
    | Thrown

  /** What the handler answered, whether it listed subscribers, and the sends it issued. */
  datatype Dispatch = Dispatch(response: Response, listed: bool, sends: seq<EmailData>)

  const FormContentType: string := "application/x-www-form-urlencoded"

  predicate ContentTypeIsForm(headers: map<string, string>) {
    "content-type" in headers && headers["content-type"] == FormContentType
  }

  /**
   * form['password'] === process.env.PASSWORD: a missing field is undefined
   * and equals only an unset secret; a repeated field is an array and
   * equals nothing.
   */
  predicate PasswordMatches(form: map<string, seq<string>>, secret: Option<string>) {
    if "password" in form then |form["password"]| == 1 && secret == Some(form["password"][0])
    else secret.None?
  }

  function RedirectWith(referer: Option<Url>, code: string): Response {
    match referer
    case Some(u) => Redirect(UrlWithCodeParam(u, code))
    case None => Thrown
  }

  /** One message per listed subscriber, addressed to that subscriber alone. */
  function Emails(docs: seq<Appwrite.SubscriberDoc>): (r: seq<EmailData>)
    ensures |r| == |docs|
    ensures forall k :: 0 <= k < |docs| ==>
      r[k] == EmailData(Sender, [docs[k].email], Subject, Html)
  {
    seq(|docs|, k requires 0 <= k < |docs| => EmailData(Sender, [docs[k].email], Subject, Html))
  }

  /** The exported handler. sendOk(k) is whether the k-th send resolved. */
  function Handle(req: Request, secret: Option<string>,
                  listing: Result<seq<Appwrite.SubscriberDoc>, string>, sendOk: nat -> bool): (d: Dispatch)
    ensures req.httpMethod == "GET" && req.path == "/" ==> d == Dispatch(Page("index.html", 200), false, [])
    ensures d.sends != [] ==> d.listed
    ensures d.listed <==>
      !(req.httpMethod == "GET" && req.path == "/") &&
      ContentTypeIsForm(req.headers) && PasswordMatches(req.form, secret)
    ensures d.listed && listing.Success? ==> d.sends == Emails(listing.value)
    ensures d.listed && listing.Failure? ==>
      d.sends == [] && d.response == RedirectWith(req.referer, ServerError)
    ensures d.response.Page? ==> d.response.status == 200
  {
    if req.httpMethod == "GET" && req.path == "/" then
      Dispatch(Page("index.html", 200), false, [])
    else if !ContentTypeIsForm(req.headers) then
      Dispatch(RedirectWith(req.referer, InvalidRequest), false, [])
    else if !PasswordMatches(req.form, secret) then
      Dispatch(RedirectWith(req.referer, InvalidRequest), false, [])
    else
      match listing
      case Failure(_) => Dispatch(RedirectWith(req.referer, ServerError), true, [])
      case Success(docs) =>
        var sends := Emails(docs);
        if forall k :: 0 <= k < |sends| ==> sendOk(k) then
          Dispatch(Page("success.html", 200), true, sends)
        else
          Dispatch(RedirectWith(req.referer, ServerError), true, sends)
  }

  /** The code a redirect carries, if the response is one. */
  function CodeOf(r: Response): seq<string> {
    if r.Redirect? then Values(r.url.query, "code") else []
  }

  /**
   * An accepted request whose subscriber listing fails: nobody is mailed and
   * the visitor is sent back with server-error (or, with no usable referer,
   * the handler throws).
   */
  lemma ListingFailureIsServerError(req: Request, secret: Option<string>, error: string, sendOk: nat -> bool)
    requires !(req.httpMethod == "GET" && req.path == "/")
    requires ContentTypeIsForm(req.headers) && PasswordMatches(req.form, secret)
    ensures var d := Handle(req, secret, Failure(error), sendOk);
      d.listed && d.sends == [] &&
      (req.referer.Some? ==> d.response.Redirect? && CodeOf(d.response) == [ServerError]) &&
      (req.referer.None? ==> d.response.Thrown?)
  {
  }

  /** A request that is not GET / with the wrong content type: invalid-request, nothing listed or sent. */
  lemma WrongContentTypeRejected(req: Request, secret: Option<string>,
                                 listing: Result<seq<Appwrite.SubscriberDoc>, string>, sendOk: nat -> bool)
    requires !(req.httpMethod == "GET" && req.path == "/") && !ContentTypeIsForm(req.headers)
    ensures var d := Handle(req, secret, listing, sendOk);
      !d.listed && d.sends == [] &&
      (req.referer.Some? ==> d.response.Redirect? && CodeOf(d.response) == [InvalidRequest])
  {
  }

  /** The right content type but the wrong password: the same rejection. */
  lemma WrongPasswordRejected(req: Request, secret: Option<string>,
                              listing: Result<seq<Appwrite.SubscriberDoc>, string>, sendOk: nat -> bool)
    requires !(req.httpMethod == "GET" && req.path == "/") && ContentTypeIsForm(req.headers)
    requires !PasswordMatches(req.form, secret)
    ensures var d := Handle(req, secret, listing, sendOk);
      !d.listed && d.sends == [] &&
      (req.referer.Some? ==> d.response.Redirect? && CodeOf(d.response) == [InvalidRequest])
  {
  }

  /**
   * With the password accepted, every listed subscriber gets one send; the
   * success page comes back only when the listing and every send succeeded,
   * and otherwise a server-error redirect, with all sends still issued.
   */
  lemma AcceptedRequestFansOut(req: Request, secret: Option<string>,
                               docs: seq<Appwrite.SubscriberDoc>, sendOk: nat -> bool)
    requires !(req.httpMethod == "GET" && req.path == "/")
    requires ContentTypeIsForm(req.headers) && PasswordMatches(req.form, secret)
    requires req.referer.Some?
    ensures var d := Handle(req, secret, Success(docs), sendOk);
      d.listed && |d.sends| == |docs| &&
      (forall k :: 0 <= k < |docs| ==> d.sends[k].to == [docs[k].email]) &&
      (d.response == Page("success.html", 200) <==> forall k :: 0 <= k < |docs| ==> sendOk(k)) &&
      (!d.response.Page? ==> CodeOf(d.response) == [ServerError])
  {
  }

  /** The missing-form-fields code is declared, but no request is answered with it. */
  lemma MissingFormFieldsNeverSent(req: Request, secret: Option<string>,
                                   listing: Result<seq<Appwrite.SubscriberDoc>, string>, sendOk: nat -> bool)
    ensures var r := Handle(req, secret, listing, sendOk).response;
      CodeOf(r) == [] || CodeOf(r) == [InvalidRequest] || CodeOf(r) == [ServerError]
    ensures CodeOf(Handle(req, secret, listing, sendOk).response) != [MissingFormFields]
  {
  }

  /**
   * With no PASSWORD configured, a form that carries no password field
   * passes the check (undefined === undefined) and the newsletter goes out.
   */
  lemma UnsetSecretAdmitsMissingPassword(req: Request, docs: seq<Appwrite.SubscriberDoc>, sendOk: nat -> bool)
    requires !(req.httpMethod == "GET" && req.path == "/") && ContentTypeIsForm(req.headers)
    requires "password" !in req.form
    ensures Handle(req, None, Success(docs), sendOk).listed
    ensures Handle(req, None, Success(docs), sendOk).sends == Emails(docs)
  {
  }

  /** Query.isNotNull("subscribed_at") over the subscribers collection. */
  function Active(docs: seq<Appwrite.SubscriberDoc>): (r: seq<Appwrite.SubscriberDoc>)
    ensures forall d :: d in r <==> d in docs && d.subscribedAt.Some?
    decreases |docs|
  {
    if docs == [] then []
    else (if docs[0].subscribedAt.Some? then [docs[0]] else []) + Active(docs[1..])
  }

  /**
   * Everyone saveSubscriber stored is active, so an accepted dispatch over
   * the store's active subscribers sends one message to each of them.
   */
  lemma SavedSubscriberIsMailed(req: Request, secret: Option<string>, docs: seq<Appwrite.SubscriberDoc>,
                                doc: Appwrite.SubscriberDoc, sendOk: nat -> bool)
    requires !(req.httpMethod == "GET" && req.path == "/")
    requires ContentTypeIsForm(req.headers) && PasswordMatches(req.form, secret)
    requires doc in docs && doc.subscribedAt.Some?
    ensures EmailData(Sender, [doc.email], Subject, Html) in Handle(req, secret, Success(Active(docs)), sendOk).sends
  {
    var active := Active(docs);
    var k :| 0 <= k < |active| && active[k] == doc;
    assert Emails(active)[k] == EmailData(Sender, [doc.email], Subject, Html);
  }
}
