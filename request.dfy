/** The HTTP client's two interceptors. Outbound, the shopper token becomes a bearer header.
    Inbound, the backend envelope `{code, message, data}` is unwrapped on code `0`, ends the
    shopper session on code `40002`, and is rejected otherwise; a transport failure is mapped
    to a message by HTTP status and rejected with the original error. The toasts and the
    navigation the interceptors trigger are recorded as events of the outcome. */
module Request {
  import opened Wrappers
  import opened Json
  import opened Decimal
  import opened Router
  import opened Session
  import opened UserStore

  /** The `message` field of an envelope: missing, JSON `null`, or a string. */
  datatype Message = Absent | Null | Text(text: string)

  /** The backend envelope. A missing (or non-numeric) `code` and a missing `data` are
      `None`. */
  datatype Envelope = Envelope(code: Option<int>, message: Message, data: Option<Json>)

  /** An axios error: `error.response.status` when the server answered, `None` when no
      response arrived; `detail` stands for the rest of the error object. */
  datatype HttpError = HttpError(status: Option<nat>, detail: string)

  /** Why a call was rejected. A business rejection is a plain `Error` with a message and no
      code, so a caller cannot tell one backend code from another. */
  datatype Failure = BusinessError(message: string) | TransportFailure(error: HttpError)

  /** `ElMessage.warning` and `ElMessage.error`. */
  datatype Level = Warning | Error

  /** Side effects, in the order the interceptor performs them. */
  datatype Event =
    | ClearShopperSession
    | Toast(level: Level, text: string)
    | Navigate(to: Location)

  /** What the caller's promise settles to. */
  datatype Settled = Resolved(data: Option<Json>) | Rejected(reason: Failure)

  datatype Outcome = Outcome(events: seq<Event>, settled: Settled)

  const Success: int := 0
  const SessionExpired: int := 40002
  const ExpiredText: string := "登录已过期，请重新登录"
  const BusyText: string := "系统繁忙，请稍后重试"

  // ---------------------------------------------------------------------------------------
  // Outbound

  const AuthHeader: string := "Authorization"

  /** The outgoing request's configuration; its header table is updated in place. */
  class RequestConfig {
    var headers: map<string, string>

    constructor (headers: map<string, string>)
      ensures this.headers == headers
    {
      this.headers := headers;
    }
  }

  /** The headers after the request interceptor: a non-empty shopper token is sent as
      `Authorization: Bearer <token>`; without one the headers go out as they were. */
  function WithBearer(headers: map<string, string>, token: string): (h: map<string, string>)
    ensures token == "" ==> h == headers
    ensures token != "" ==> AuthHeader in h && h[AuthHeader] == "Bearer " + token
    ensures forall k :: k in headers && k != AuthHeader ==> k in h && h[k] == headers[k]
    ensures forall k :: k in h ==> k in headers || (k == AuthHeader && token != "")
  {
    if token != "" then headers[AuthHeader := "Bearer " + token] else headers
  }

  /** The request interceptor: reads the shopper store's token and updates the
      configuration's headers in place, then hands the same configuration on. */
  method AttachToken(config: RequestConfig, shopper: SessionStore) returns (sent: RequestConfig)
    requires shopper.keys == ShopperKeys
    modifies config
    ensures sent == config
    ensures config.headers == WithBearer(old(config.headers), shopper.token)
  {
    if shopper.token != "" {
      config.headers := config.headers[AuthHeader := "Bearer " + shopper.token];
    }
    sent := config;
  }

  // ---------------------------------------------------------------------------------------
  // Inbound, successful transport

  /** The toasts among the events, in order. */
  function Toasts(events: seq<Event>): (t: seq<Event>)
    ensures forall e :: e in t <==> e in events && e.Toast?
    decreases |events|
  {
    if events == [] then []
    else (if events[0].Toast? then [events[0]] else []) + Toasts(events[1..])
  }

  /** `res.message || fallback`: a missing, `null` or empty message is falsy. */
  function MessageOr(message: Message, fallback: string): string {
    if message.Text? && message.text != "" then message.text else fallback
  }

  /** `new Error(res.message).message`: a missing message gives the empty string, and `null`
      is converted to the string `"null"`. */
  function ErrorText(message: Message): (t: string)
    ensures message.Text? ==> t == message.text
    ensures message.Absent? ==> t == ""
    ensures message.Null? ==> t == "null"
  {
    match message
    case Absent => ""
    case Null => "null"
    case Text(text) => text
  }

  /** The response interceptor's decision for an envelope, given where code `40002` sends the
      shopper. Code `0` yields exactly `data` with no side effect; code `40002` ends the
      shopper session, warns, navigates to `loginTarget` and rejects with the server's
      message; any other code shows an error and rejects, without touching the session. */
  function Decide(res: Envelope, loginTarget: Location): (o: Outcome)
    ensures o.settled.Resolved? <==> res.code == Some(Success)
    ensures res.code == Some(Success) ==> o == Outcome([], Resolved(res.data))
    ensures ClearShopperSession in o.events <==> res.code == Some(SessionExpired)
    ensures (exists e :: e in o.events && e.Navigate?) <==> res.code == Some(SessionExpired)
    ensures res.code == Some(SessionExpired) ==>
              && o.settled == Rejected(BusinessError(ErrorText(res.message)))
              && |o.events| == 3
              && o.events[0] == ClearShopperSession
              && o.events[1] == Toast(Warning, MessageOr(res.message, ExpiredText))
              && o.events[2] == Navigate(loginTarget)
    ensures o.settled.Rejected? ==> |Toasts(o.events)| == 1
    ensures res.code != Some(Success) && res.code != Some(SessionExpired) ==>
              o.settled == Rejected(BusinessError(MessageOr(res.message, "Error")))
              && o.events == [Toast(Error, MessageOr(res.message, BusyText))]
  {
    if res.code == Some(Success) then
      Outcome([], Resolved(res.data))
    else if res.code == Some(SessionExpired) then
      var events := [ClearShopperSession,
                     Toast(Warning, MessageOr(res.message, ExpiredText)),
                     Navigate(loginTarget)];
      assert events[2] in events;
      assert Toasts(events) == [events[1]] by {
        assert Toasts(events[2..]) == [] by { assert events[2..][1..] == []; }
        assert events[1..][1..] == events[2..];
      }
      Outcome(events, Rejected(BusinessError(ErrorText(res.message))))
    else
      Outcome([Toast(Error, MessageOr(res.message, BusyText))],
              Rejected(BusinessError(MessageOr(res.message, "Error"))))
  }

  /** The response interceptor as written: on `40002` it navigates to the unencoded string
      `/login?redirect=<fullPath>` as the router reads it back. Everything else (settlement,
      toasts, session clearing) is as in the corrected interceptor, and so is the navigation
      whenever the current full path has no `&`, `#`, `+` or `%`. */
  function Classify(res: Envelope, currentFullPath: string): (o: Outcome)
    ensures o.settled == ClassifyCorrected(res, currentFullPath).settled
    ensures res.code != Some(SessionExpired) ==> o == ClassifyCorrected(res, currentFullPath)
    ensures res.code == Some(SessionExpired) ==>
              && |o.events| == 3
              && o.events[..2] == ClassifyCorrected(res, currentFullPath).events[..2]
              && o.events[2] == Navigate(ExpiredRedirectAsWritten(currentFullPath))
  {
    Decide(res, ExpiredRedirectAsWritten(currentFullPath))
  }

  /** The response interceptor as evidently intended: on `40002` the login page receives the
      whole current full path as its `redirect` parameter, as the route guard does. */
  function ClassifyCorrected(res: Envelope, currentFullPath: string): (o: Outcome)
    ensures res.code == Some(SessionExpired) ==>
              && |o.events| == 3
              && o.events[2].Navigate?
              && o.events[2].to.path == "/login"
              && o.events[2].to.query == map["redirect" := currentFullPath]
  {
    Decide(res, LoginRedirect(currentFullPath))
  }

  /** The two interceptors agree whenever the current full path is plain. */
  lemma ClassifyAgreesOnPlainPaths(res: Envelope, currentFullPath: string)
    requires '&' !in currentFullPath && '#' !in currentFullPath
    requires '+' !in currentFullPath && '%' !in currentFullPath
    ensures Classify(res, currentFullPath) == ClassifyCorrected(res, currentFullPath)
  {
    AsWrittenAgreesOnPlainPaths(currentFullPath);
  }

  /** The response interceptor as it runs: the decision of `Classify`, with the shopper
      session actually cleared when the decision says so and left alone otherwise. */
  method OnResponse(res: Envelope, shopper: SessionStore, currentFullPath: string) returns (o: Outcome)
    requires shopper.Valid() && shopper.keys == ShopperKeys
    modifies shopper, shopper.storage
    ensures o == Classify(res, currentFullPath)
    ensures ClearShopperSession in o.events ==>
              shopper.View() == Step(ShopperKeys, shopper.codec, old(shopper.View()), Op.ClearToken)
    ensures ClearShopperSession !in o.events ==> shopper.View() == old(shopper.View())
  {
    if res.code == Some(Success) {
      return Outcome([], Resolved(res.data));
    }
    if res.code == Some(SessionExpired) {
      shopper.ClearToken();
      var warning := Toast(Warning, MessageOr(res.message, ExpiredText));
      var back := Navigate(ExpiredRedirectAsWritten(currentFullPath));
      return Outcome([ClearShopperSession, warning, back], Rejected(BusinessError(ErrorText(res.message))));
    }
    o := Outcome([Toast(Error, MessageOr(res.message, BusyText))],
                 Rejected(BusinessError(MessageOr(res.message, "Error"))));
  }

  /** Code `40004` (stock conflict) is handled exactly like any other unrecognised code: the
      rejection carries the message only, so a caller cannot single it out. */
  lemma StockConflictIndistinguishable(code: int, message: Message, d1: Option<Json>,
                                       d2: Option<Json>, path1: string, path2: string)
    requires code != Success && code != SessionExpired
    ensures Classify(Envelope(Some(40004), message, d1), path1) == Classify(Envelope(Some(code), message, d2), path2)
  {
  }

  /** Whatever the envelope, the outcome of a rejected call depends only on the code's class
      and the message, never on `data`. */
  lemma RejectionIgnoresData(res: Envelope, data: Option<Json>, path: string)
    requires res.code != Some(Success)
    ensures Classify(res, path) == Classify(res.(data := data), path)
  {
  }

  // ---------------------------------------------------------------------------------------
  // Inbound, failed transport

  const NoResponseText: string := "网络请求失败"
  const ConnectionErrorPrefix: string := "连接错误 "

  /** The message shown for a transport failure, by HTTP status: a fixed text for 401, 403, 404
      and 500, `连接错误 ` followed by the status in decimal for any other status, and
      `网络请求失败` when no response arrived. */
  function TransportMessage(status: Option<nat>): (t: string)
    ensures status.None? ==> t == NoResponseText
    ensures status == Some(401) ==> t == "未授权，请登录"
    ensures status == Some(403) ==> t == "拒绝访问"
    ensures status == Some(404) ==> t == "请求资源不存在"
    ensures status == Some(500) ==> t == "服务器内部错误"
    ensures status.Some? && status.value !in {401, 403, 404, 500} ==>
              && |ConnectionErrorPrefix| < |t|
              && t[..|ConnectionErrorPrefix|] == ConnectionErrorPrefix
              && t[|ConnectionErrorPrefix|..] == Digits(status.value)
              && IsDigits(t[|ConnectionErrorPrefix|..])
              && Value(t[|ConnectionErrorPrefix|..]) == status.value
  {
    match status
    case None => NoResponseText
    case Some(s) =>
      if s == 401 then "未授权，请登录"
      else if s == 403 then "拒绝访问"
      else if s == 404 then "请求资源不存在"
      else if s == 500 then "服务器内部错误"
      else
        var t := ConnectionErrorPrefix + Digits(s);
        assert t[|ConnectionErrorPrefix|..] == Digits(s);
        ValueOfDigits(s);
        t
  }

  /** The error interceptor: one error toast, and a rejection with the original error. */
  function OnTransportError(e: HttpError): (o: Outcome)
    ensures o.settled == Rejected(TransportFailure(e))
    ensures |Toasts(o.events)| == 1 && o.events == Toasts(o.events)
    ensures o.events[0].level == Error && o.events[0].text == TransportMessage(e.status)
  {
    Outcome([Toast(Error, TransportMessage(e.status))], Rejected(TransportFailure(e)))
  }

  /** The status a transport message reports: the inverse of `TransportMessage`. */
  function ReportedStatus(text: string): Option<nat> {
    if text == "未授权，请登录" then Some(401)
    else if text == "拒绝访问" then Some(403)
    else if text == "请求资源不存在" then Some(404)
    else if text == "服务器内部错误" then Some(500)
    else if |ConnectionErrorPrefix| <= |text| && text[..|ConnectionErrorPrefix|] == ConnectionErrorPrefix
            && IsDigits(text[|ConnectionErrorPrefix|..])
    then Some(Value(text[|ConnectionErrorPrefix|..]))
    else None
  }

  /** Every transport message names its status: reading it back gives the status, and a
      missing response is reported as such. */
  lemma TransportMessageRoundTrip(status: Option<nat>)
    ensures ReportedStatus(TransportMessage(status)) == status
  {
    if status.Some? && status.value !in {401, 403, 404, 500} {
      var text := TransportMessage(status);
      var digits := Digits(status.value);
      assert text == ConnectionErrorPrefix + digits;
      assert text[0] == '连';
      assert text[..|ConnectionErrorPrefix|] == ConnectionErrorPrefix;
      assert text[|ConnectionErrorPrefix|..] == digits;
      ValueOfDigits(status.value);
    }
  }

  /** Two statuses (or a status and no response) never share a message. */
  lemma TransportMessageInjective(a: Option<nat>, b: Option<nat>)
    ensures TransportMessage(a) == TransportMessage(b) ==> a == b
  {
    TransportMessageRoundTrip(a);
    TransportMessageRoundTrip(b);
  }

  // ---------------------------------------------------------------------------------------
  // The session-expiry redirect as written

  /** The session-expiry navigation as the source builds it: the string
      `/login?redirect=<fullPath>`, unencoded, read back by the router. Without `#` in the
      full path it is the login page whose query string is everything after `?`. */
  function ExpiredRedirectAsWritten(currentFullPath: string): (r: Location)
    ensures '#' !in currentFullPath ==>
              r == Location("/login", ParseQuery("redirect=" + currentFullPath))
  {
    PushedStringParses(currentFullPath);
    ParseLocation("/login?redirect=" + currentFullPath)
  }

  /** With no `#` in the current full path, the pushed string is the login page with the text
      after `?` as its query string. */
  lemma PushedStringParses(fullPath: string)
    ensures '#' !in fullPath ==>
              ParseLocation("/login?redirect=" + fullPath) == Location("/login", ParseQuery("redirect=" + fullPath))
  {
    if '#' in fullPath {
      return;
    }
    var prefix := "/login?redirect=";
    var url := prefix + fullPath;
    forall j | 0 <= j < |url| ensures url[j] != '#' {
      if j >= |prefix| { assert url[j] == fullPath[j - |prefix|]; }
    }
    FirstAt(url, '#', |url|);
    assert url[..|url|] == url;
    FirstAt(url, '?', 6);
    assert url[..6] == "/login";
    assert url[7..] == "redirect=" + fullPath;
  }

  /** In `redirect=<value>`, the first `&` is the first `&` of `value`. */
  lemma AmpersandOfRedirect(value: string)
    ensures IndexOf("redirect=" + value, '&') == 9 + IndexOf(value, '&')
  {
    var search := "redirect=" + value;
    var amp := IndexOf(value, '&');
    forall j | 0 <= j < 9 + amp ensures search[j] != '&' {
      if j >= 9 { assert search[j] == value[j - 9]; }
    }
    if amp < |value| {
      assert search[9 + amp] == value[amp];
    }
    FirstAt(search, '&', 9 + amp);
  }

  /** The first parameter of a query string is always read, whatever follows it. */
  lemma FirstParameter(search: string)
    ensures var param := search[..IndexOf(search, '&')];
            var eq := IndexOf(param, '=');
            && param[..eq] in ParseQuery(search)
            && ParseQuery(search)[param[..eq]] == if eq < |param| then param[eq + 1..] else ""
  {
  }

  /** The first parameter of a query string `redirect=<value>` is `value` up to its first
      `&`. */
  lemma RedirectParameter(value: string)
    ensures "redirect" in ParseQuery("redirect=" + value)
    ensures ParseQuery("redirect=" + value)["redirect"] == value[..IndexOf(value, '&')]
  {
    AmpersandOfRedirect(value);
    RedirectPair(value, IndexOf(value, '&'));
    KeyValueFirst("redirect=" + value, "redirect", value[..IndexOf(value, '&')]);
  }

  /** The first `9 + amp` characters of `redirect=<value>` are the pair `redirect` and
      `value[..amp]`, split at the `=` after `redirect`. */
  lemma RedirectPair(value: string, amp: nat)
    requires amp <= |value|
    ensures ("redirect=" + value)[..9 + amp] == "redirect" + "=" + value[..amp]
    ensures IndexOf("redirect" + "=" + value[..amp], '=') == 8
  {
    var param := "redirect" + "=" + value[..amp];
    assert ("redirect=" + value)[..9 + amp] == param;
    FirstAt(param, '=', 8);
  }

  /** When the first parameter of a query string is `key=value` with no `=` in `key`, the
      parsed query maps `key` to `value`. */
  lemma KeyValueFirst(search: string, key: string, value: string)
    requires search[..IndexOf(search, '&')] == key + "=" + value
    requires IndexOf(key + "=" + value, '=') == |key|
    ensures key in ParseQuery(search) && ParseQuery(search)[key] == value
  {
    var param := key + "=" + value;
    assert param[..|key|] == key && param[|key| + 1..] == value;
    FirstParameter(search);
  }

  /** Without `&` in `value`, `redirect=<value>` is that one parameter and nothing else. */
  lemma SingleRedirectParameter(value: string)
    requires '&' !in value
    ensures ParseQuery("redirect=" + value) == map["redirect" := value]
  {
    var search := "redirect=" + value;
    FirstAt(value, '&', |value|);
    AmpersandOfRedirect(value);
    assert search[..|search|] == search;
    FirstAt(search, '=', 8);
    assert search[..8] == "redirect" && search[9..] == value;
  }

  /** A current full path with an `&` in it comes back cut at the first `&`: the router reads
      the rest as further parameters of the login page, so the return target loses them
      (for instance `/products?categoryId=1&page=2` comes back as `/products?categoryId=1`). */
  lemma AsWrittenLosesQuery(before: string, after: string)
    requires '&' !in before && '#' !in before && '#' !in after
    ensures "redirect" in ExpiredRedirectAsWritten(before + "&" + after).query
    ensures ExpiredRedirectAsWritten(before + "&" + after).query["redirect"] == before
    ensures ExpiredRedirectAsWritten(before + "&" + after) != LoginRedirect(before + "&" + after)
  {
    var fullPath := before + "&" + after;
    assert '#' !in fullPath by {
      forall j | 0 <= j < |fullPath| ensures fullPath[j] != '#' {
        if j < |before| { assert fullPath[j] == before[j]; }
        else if j > |before| { assert fullPath[j] == after[j - |before| - 1]; }
      }
    }
    forall j | 0 <= j < |before| ensures fullPath[j] != '&' {
      assert fullPath[j] == before[j];
    }
    FirstAt(fullPath, '&', |before|);
    RedirectParameter(fullPath);
    assert fullPath[..|before|] == before;
    assert LoginRedirect(fullPath).query["redirect"] == fullPath;
  }

  /** Without `&` or `#` in the current full path, the string form reads back as the
      intended location (percent-decoding is not modelled, so `%` and `+` are excluded too). */
  lemma AsWrittenAgreesOnPlainPaths(fullPath: string)
    requires '&' !in fullPath && '#' !in fullPath && '+' !in fullPath && '%' !in fullPath
    ensures ExpiredRedirectAsWritten(fullPath) == LoginRedirect(fullPath)
  {
    SingleRedirectParameter(fullPath);
  }

  /** `IndexOf` is the position of the first occurrence, or the length when there is none. */
  lemma FirstAt(s: string, c: char, i: nat)
    requires i <= |s|
    requires forall j :: 0 <= j < i ==> s[j] != c
    requires i < |s| ==> s[i] == c
    ensures IndexOf(s, c) == i
  {
  }
}
