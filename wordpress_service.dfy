/**
 * Publishing the rendered page to WordPress: the credential check, the endpoint, the
 * Basic credentials, and how the HTTP exchange is turned into `{success, message}`.
 * The exchange itself is an input: `Outcome` says how the request ended.
 */
module WordPressService {
  import opened Wrappers
  import opened Types
  import opened Strings
  import Base64
  import Decimal
  import HtmlGenerator

  /** What the publisher returns to the editor. */
  datatype PublishResult = PublishResult(success: bool, message: string)

  /** The POST request sent: `Content-Type: application/json`, Basic authorization, and the page as `content`. */
  datatype Request = Request(endpoint: string, authorization: string, content: string)

  /** How the request ended: a response (with the `message` of its JSON body, if any), or a thrown failure. */
  datatype Outcome =
    | Responded(status: nat, statusText: string, bodyMessage: Option<string>)
    | Thrown(errorMessage: Option<string>)  // None: the thrown value is not an `Error`

  /** The request that was sent, if any, and the result handed back. */
  datatype Publication = Publication(sent: Option<Request>, result: PublishResult)

  const MissingSettingsMessage: string := "Lütfen tüm WordPress ayarlarını doldurun."
  const SuccessMessage: string := "Sayfa başarıyla güncellendi!"
  const ConnectionErrorMessage: string := "WordPress bağlantı hatası."
  const RestPagesPath: string := "/wp-json/wp/v2/pages/"
  /** The message of the error `btoa` throws on a non-Latin-1 credential (its wording is the browser's). */
  const InvalidCharacterMessage: string := "The string to be encoded contains characters outside of the Latin1 range."

  /** `response.ok`: a 2xx status. */
  predicate IsOk(status: nat) { 200 <= status <= 299 }

  /** All four settings are non-empty (a JavaScript empty string is falsy). */
  predicate HasAllSettings(wp: WPSettings) {
    wp.siteUrl != "" && wp.pageId != "" && wp.username != "" && wp.appPassword != ""
  }

  /** `siteUrl.replace(/\/$/, '')`: one trailing slash, if any, is removed; nothing else changes. */
  function BaseUrl(siteUrl: string): (r: string)
    ensures siteUrl == r || siteUrl == r + "/"
    ensures |siteUrl| > 0 && siteUrl[|siteUrl| - 1] == '/' <==> siteUrl == r + "/"
  {
    if |siteUrl| > 0 && siteUrl[|siteUrl| - 1] == '/' then siteUrl[..|siteUrl| - 1] else siteUrl
  }

  /** `{baseUrl}/wp-json/wp/v2/pages/{pageId}`, with `pageId` spliced in unencoded. */
  function Endpoint(wp: WPSettings): (r: string)
    ensures IsPrefix(BaseUrl(wp.siteUrl), r)
    ensures IsSuffix(RestPagesPath + wp.pageId, r)
    ensures |r| == |BaseUrl(wp.siteUrl)| + |RestPagesPath| + |wp.pageId|
  {
    BaseUrl(wp.siteUrl) + RestPagesPath + wp.pageId
  }

  /** `Basic ` and the base 64 of `username:appPassword`; `None` when `btoa` throws. */
  function GetAuthHeader(wp: WPSettings): (r: Option<string>)
    ensures r.Some? <==> Base64.IsLatin1(wp.username + ":" + wp.appPassword)
    ensures r.Some? ==> r.value == "Basic " + Base64.Encode(Base64.Latin1Bytes(wp.username + ":" + wp.appPassword))
  {
    match Base64.Btoa(wp.username + ":" + wp.appPassword)
    case None => None
    case Some(encoded) => Some("Basic " + encoded)
  }

  /** The result for a finished exchange: the `try` body's return, or the `catch` block's. */
  function ResultFor(outcome: Outcome): (r: PublishResult)
    ensures r.success <==> outcome.Responded? && IsOk(outcome.status)
    ensures r.success ==> r.message == SuccessMessage
    ensures r.message == "" <==> outcome == Thrown(Some(""))
    ensures outcome.Thrown? ==> r == PublishResult(false, outcome.errorMessage.GetOr(ConnectionErrorMessage))
  {
    match outcome
    case Responded(status, statusText, bodyMessage) =>
      if IsOk(status) then PublishResult(true, SuccessMessage)
      else if bodyMessage.Some? && bodyMessage.value != "" then PublishResult(false, bodyMessage.value)
      else PublishResult(false, "Hata: " + Decimal.NatToString(status) + " " + statusText)
    case Thrown(errorMessage) =>
      PublishResult(false, errorMessage.GetOr(ConnectionErrorMessage))
  }

  /**
   * `updateWordPressPage(campaigns, siteSettings, wpSettings)`, with the calendar year the
   * page is rendered in and the outcome of the one request it sends. It never throws:
   * every path ends in a `PublishResult`.
   */
  function UpdateWordPressPage(campaigns: seq<Campaign>, site: SiteSettings, wp: WPSettings, year: nat, outcome: Outcome): (p: Publication)
    ensures !HasAllSettings(wp) ==> p == Publication(None, PublishResult(false, MissingSettingsMessage))
    ensures p.sent.Some? <==> HasAllSettings(wp) && GetAuthHeader(wp).Some?
    ensures p.sent.Some? ==>
              && p.sent.value.endpoint == Endpoint(wp)
              && p.sent.value.authorization == GetAuthHeader(wp).value
              && p.sent.value.content == HtmlGenerator.GenerateStandaloneHtml(campaigns, site, year)
              && p.result == ResultFor(outcome)
    ensures p.result.success ==> p.sent.Some? && p.result.message == SuccessMessage
    ensures HasAllSettings(wp) && GetAuthHeader(wp).None? ==> p == Publication(None, PublishResult(false, InvalidCharacterMessage))
  {
    if !HasAllSettings(wp) then
      Publication(None, PublishResult(false, MissingSettingsMessage))
    else
      var content := HtmlGenerator.GenerateStandaloneHtml(campaigns, site, year);
      var endpoint := Endpoint(wp);
      match GetAuthHeader(wp)
      case None => Publication(None, PublishResult(false, InvalidCharacterMessage))
      case Some(authorization) => Publication(Some(Request(endpoint, authorization, content)), ResultFor(outcome))
  }

  /** `"x/"` and `"x"` give the same endpoint when `x` does not itself end in a slash. */
  lemma TrailingSlashIrrelevant(wp: WPSettings, x: string)
    requires x == [] || x[|x| - 1] != '/'
    ensures Endpoint(wp.(siteUrl := x + "/")) == Endpoint(wp.(siteUrl := x))
  {
    assert (x + "/")[..|x|] == x;
  }

  /** Only one slash is removed: `"x//"` keeps one. */
  lemma OnlyOneTrailingSlashRemoved(x: string)
    ensures BaseUrl(x + "//") == x + "/"
  {
    assert (x + "//")[..|x| + 1] == x + "/";
  }

  /** The user-id: everything before the first colon of the decoded credentials. */
  function UserId(credentials: string): (r: string)
    ensures IsPrefix(r, credentials)
    ensures ':' !in r
  {
    if credentials == [] || credentials[0] == ':' then "" else [credentials[0]] + UserId(credentials[1..])
  }

  /** A server decoding the Authorization value gets `username:appPassword` back, whatever the credentials hold. */
  lemma AuthHeaderDecodes(wp: WPSettings)
    requires Base64.IsLatin1(wp.username + ":" + wp.appPassword)
    ensures GetAuthHeader(wp).Some?
    ensures IsPrefix("Basic ", GetAuthHeader(wp).value)
    ensures Base64.Atob(GetAuthHeader(wp).value[6..]) == Some(wp.username + ":" + wp.appPassword)
  {
    var credentials := wp.username + ":" + wp.appPassword;
    Base64.AtobBtoa(credentials);
    var header := GetAuthHeader(wp).value;
    assert header[6..] == Base64.Btoa(credentials).value;
  }

  /**
   * As section 2 of RFC 7617 has it, the user-id is what precedes the first colon of the
   * decoded credentials and the password all that follows it; the server recovers both
   * when the username holds no colon.
   */
  lemma AuthHeaderRecoversCredentials(wp: WPSettings)
    requires Base64.IsLatin1(wp.username + ":" + wp.appPassword)
    requires ':' !in wp.username
    ensures GetAuthHeader(wp).Some?
    ensures IsPrefix("Basic ", GetAuthHeader(wp).value)
    ensures Base64.Atob(GetAuthHeader(wp).value[6..]) == Some(wp.username + ":" + wp.appPassword)
    ensures UserId(wp.username + ":" + wp.appPassword) == wp.username
    ensures (wp.username + ":" + wp.appPassword)[|wp.username| + 1..] == wp.appPassword
  {
    AuthHeaderDecodes(wp);
    UserIdBeforeColon(wp.username, wp.appPassword);
  }

  lemma {:induction false} UserIdBeforeColon(user: string, password: string)
    requires ':' !in user
    ensures UserId(user + ":" + password) == user
  {
    if user != [] {
      assert (user + ":" + password)[1..] == user[1..] + ":" + password;
      UserIdBeforeColon(user[1..], password);
    }
  }

  /** A rejected request whose body has no usable message reports the numeric status. */
  lemma RejectionShowsStatus(status: nat, statusText: string, bodyMessage: Option<string>)
    requires !IsOk(status)
    requires bodyMessage == None || bodyMessage == Some("")
    ensures ResultFor(Responded(status, statusText, bodyMessage))
         == PublishResult(false, "Hata: " + Decimal.NatToString(status) + " " + statusText)
    ensures Contains(ResultFor(Responded(status, statusText, bodyMessage)).message, Decimal.NatToString(status))
  {
    ContainsInside("Hata: ", Decimal.NatToString(status), " " + statusText);
    assert "Hata: " + Decimal.NatToString(status) + " " + statusText
        == "Hata: " + Decimal.NatToString(status) + (" " + statusText);
  }

  /** A rejected request whose body carries a non-empty message reports exactly that message. */
  lemma RejectionShowsBodyMessage(status: nat, statusText: string, message: string)
    requires !IsOk(status) && message != ""
    ensures ResultFor(Responded(status, statusText, Some(message))) == PublishResult(false, message)
  {
  }

  /** Missing settings fail before anything is rendered or sent, whatever the network would have done. */
  lemma MissingSettingsSendNothing(campaigns: seq<Campaign>, site: SiteSettings, wp: WPSettings, year: nat, o1: Outcome, o2: Outcome)
    requires wp.siteUrl == "" || wp.pageId == "" || wp.username == "" || wp.appPassword == ""
    ensures UpdateWordPressPage(campaigns, site, wp, year, o1) == UpdateWordPressPage(campaigns, site, wp, year, o2)
    ensures UpdateWordPressPage(campaigns, site, wp, year, o1).sent == None
    ensures !UpdateWordPressPage(campaigns, site, wp, year, o1).result.success
  {
  }
}
