/** `Validator.validate_gateway` (chat/backend/validator.py): a URL format check, then one probe
    request whose outcome is the `probe` parameter. Status and Content-Type checks follow
    sections 15.3.1 and 8.3 of RFC 9110. */
module Validator {
  import opened Wrappers
  import opened Text
  import opened Urls
  import Config

  /** What `requests.get(url, timeout=10)` did: it answered, or raised one of the four request
      exceptions the validator tells apart. */
  datatype Probe =
    | Responded(status: int, contentType: Option<string>)
    | TimedOut
    | SslFailed
    | TooManyRedirects
    | RequestFailed(message: string)

  /** Why a URL is rejected. */
  datatype Rejection =
    | EmptyUrl
    | Malformed
    | BadFormat
    | Unreachable(status: int)
    | NotHtml(contentType: string)
    | Timeout
    | BadCertificate
    | RedirectLoop
    | ConnectionFailed(message: string)

  /** The returned dict `{"valid": ..., "error": ...}`. */
  datatype Verdict = Verdict(valid: bool, error: Option<string>)

  const EmptyUrlMessage: string := "URL cannot be empty."
  const MalformedMessage: string := "Malformed URL."
  const BadFormatMessage: string := "Invalid URL format. " + "Scheme (http/https) or domain missing."
  const UnreachablePrefix: string := "Website unreachable. " + "Status Code: "
  const NotHtmlPrefix: string := "URL does not point to a website " + "(Content-Type: "
  const NotHtmlSuffix: string := "). Expecting text/html."
  const TimeoutMessage: string := "Connection timed out (Limit: " + IntToString(Config.RequestTimeout) + "s)."
  const CertificateMessage: string := "SSL Certificate verification failed. " + "The website might be insecure."
  const RedirectMessage: string := "Too many redirects. The website is looping."
  const ConnectionFailedPrefix: string := "Connection failed: "

  /** The URL has a scheme and a netloc (and urlparse does not raise on it). */
  predicate WellFormed(url: string) {
    Netloc(url).Some? && Scheme(url) != [] && Netloc(url).value != []
  }

  /** The probe answered with status 200 and a Content-Type that, lower-cased, contains
      "text/html" (a missing header counts as ""). */
  predicate ServesHtml(probe: Probe) {
    probe.Responded? && probe.status == 200 && Contains(Lower(probe.contentType.GetOr("")), "text/html")
  }

  /** The reason `validate_gateway` rejects the URL, None when it accepts it. The checks run in
      the source's order: emptiness, parsing, format, then the probe's status and Content-Type
      (lower-cased, must contain "text/html"). */
  function Diagnose(url: string, probe: Probe): (r: Option<Rejection>)
    ensures url == [] ==> r == Some(EmptyUrl)
    ensures url != [] && !WellFormed(url) ==> r == Some(Malformed) || r == Some(BadFormat)
    ensures r.None? <==> url != [] && WellFormed(url) && ServesHtml(probe)
  {
    if url == [] then Some(EmptyUrl)
    else if Netloc(url).None? then Some(Malformed)
    else if Scheme(url) == [] || Netloc(url).value == [] then Some(BadFormat)
    else match probe
      case TimedOut => Some(Timeout)
      case SslFailed => Some(BadCertificate)
      case TooManyRedirects => Some(RedirectLoop)
      case RequestFailed(message) => Some(ConnectionFailed(message))
      case Responded(status, contentType) =>
        if status != 200 then Some(Unreachable(status))
        else
          var lowered := Lower(contentType.GetOr(""));
          if !Contains(lowered, "text/html") then Some(NotHtml(lowered)) else None
  }

  /** A URL rejected for its form is rejected before any request: the probe plays no part. */
  lemma FormatCheckedFirst(url: string, p1: Probe, p2: Probe)
    requires url == [] || !WellFormed(url)
    ensures Diagnose(url, p1) == Diagnose(url, p2)
  {
  }

  /** The error text for each reason. */
  function Message(reason: Rejection): string {
    match reason
    case EmptyUrl => EmptyUrlMessage
    case Malformed => MalformedMessage
    case BadFormat => BadFormatMessage
    case Unreachable(status) => UnreachablePrefix + IntToString(status)
    case NotHtml(contentType) => NotHtmlPrefix + contentType + NotHtmlSuffix
    case Timeout => TimeoutMessage
    case BadCertificate => CertificateMessage
    case RedirectLoop => RedirectMessage
    case ConnectionFailed(message) => ConnectionFailedPrefix + message
  }

  /** `validate_gateway(url)`. */
  function ValidateGateway(url: string, probe: Probe): (r: Verdict)
    ensures r.valid <==> r.error.None?
    ensures r.valid <==> url != [] && WellFormed(url) && ServesHtml(probe)
    ensures !r.valid ==> r.error == Some(Message(Diagnose(url, probe).value))
  {
    match Diagnose(url, probe)
    case None => Verdict(true, None)
    case Some(reason) => Verdict(false, Some(Message(reason)))
  }

  /** Reads the reason back from an error text: the three texts that quote a value are
      recognised by their fixed parts, the others by equality. */
  function ParseMessage(s: string): Option<Rejection> {
    if StartsWith(s, UnreachablePrefix) then
      match ParseInt(s[|UnreachablePrefix|..])
      case Some(status) => Some(Unreachable(status))
      case None => None
    else if StartsWith(s, NotHtmlPrefix) then
      if |NotHtmlPrefix| + |NotHtmlSuffix| <= |s| && s[|s| - |NotHtmlSuffix|..] == NotHtmlSuffix then
        Some(NotHtml(s[|NotHtmlPrefix|..|s| - |NotHtmlSuffix|]))
      else None
    else if StartsWith(s, ConnectionFailedPrefix) then Some(ConnectionFailed(s[|ConnectionFailedPrefix|..]))
    else if s == EmptyUrlMessage then Some(EmptyUrl)
    else if s == MalformedMessage then Some(Malformed)
    else if s == BadFormatMessage then Some(BadFormat)
    else if s == TimeoutMessage then Some(Timeout)
    else if s == CertificateMessage then Some(BadCertificate)
    else if s == RedirectMessage then Some(RedirectLoop)
    else None
  }

  /** Two texts that differ at a position shared by both are unequal and neither starts with
      the other. */
  lemma DiffersAt(s: string, t: string, i: nat)
    requires i < |s| && i < |t| && s[i] != t[i]
    ensures s != t && !StartsWith(s, t) && !StartsWith(t, s)
  {
  }

  /** The first characters of the three fixed parts that lead a quoting text. */
  lemma LeadingChars()
    ensures UnreachablePrefix[0] == 'W' && NotHtmlPrefix[0] == 'U' && ConnectionFailedPrefix[0] == 'C'
    ensures NotHtmlPrefix[4] == 'd' && ConnectionFailedPrefix[11] == 'f'
  {
  }

  /** A text whose first character is none of 'W', 'U' and 'C' has none of the three prefixes. */
  lemma NoQuotingPrefix(s: string)
    requires s != [] && s[0] != 'W' && s[0] != 'U' && s[0] != 'C'
    ensures !StartsWith(s, UnreachablePrefix) && !StartsWith(s, NotHtmlPrefix)
    ensures !StartsWith(s, ConnectionFailedPrefix)
  {
    LeadingChars();
    DiffersAt(s, UnreachablePrefix, 0);
    DiffersAt(s, NotHtmlPrefix, 0);
    DiffersAt(s, ConnectionFailedPrefix, 0);
  }

  lemma UnreachableRoundTrip(status: int)
    ensures ParseMessage(Message(Unreachable(status))) == Some(Unreachable(status))
  {
    var s := Message(Unreachable(status));
    assert s[..|UnreachablePrefix|] == UnreachablePrefix;
    assert s[|UnreachablePrefix|..] == IntToString(status);
    IntToStringRoundTrip(status);
  }

  lemma NotHtmlRoundTrip(contentType: string)
    ensures ParseMessage(Message(NotHtml(contentType))) == Some(NotHtml(contentType))
  {
    var s := Message(NotHtml(contentType));
    assert s[..|NotHtmlPrefix|] == NotHtmlPrefix;
    LeadingChars();
    assert s[0] == 'U';
    DiffersAt(s, UnreachablePrefix, 0);
    assert s[|s| - |NotHtmlSuffix|..] == NotHtmlSuffix;
    assert s[|NotHtmlPrefix|..|s| - |NotHtmlSuffix|] == contentType;
  }

  lemma ConnectionFailedRoundTrip(message: string)
    ensures ParseMessage(Message(ConnectionFailed(message))) == Some(ConnectionFailed(message))
  {
    var s := Message(ConnectionFailed(message));
    assert s[..|ConnectionFailedPrefix|] == ConnectionFailedPrefix;
    LeadingChars();
    assert s[0] == 'C';
    DiffersAt(s, UnreachablePrefix, 0);
    DiffersAt(s, NotHtmlPrefix, 0);
    assert s[|ConnectionFailedPrefix|..] == message;
  }

  /** The fixed texts have none of the quoting prefixes. */
  lemma FixedRoundTrip(reason: Rejection)
    requires reason.EmptyUrl? || reason.Malformed? || reason.BadFormat? || reason.Timeout?
      || reason.BadCertificate? || reason.RedirectLoop?
    ensures ParseMessage(Message(reason)) == Some(reason)
  {
    var s := Message(reason);
    match reason
    case EmptyUrl =>
      LeadingChars();
      assert s[0] == 'U' && s[4] == 'c';
      DiffersAt(s, UnreachablePrefix, 0);
      DiffersAt(s, NotHtmlPrefix, 4);
      DiffersAt(s, ConnectionFailedPrefix, 0);
    case Timeout =>
      LeadingChars();
      assert s[0] == 'C' && s[11] == 't';
      DiffersAt(s, UnreachablePrefix, 0);
      DiffersAt(s, NotHtmlPrefix, 0);
      DiffersAt(s, ConnectionFailedPrefix, 11);
    case Malformed =>
      assert s[0] == 'M';
      NoQuotingPrefix(s);
    case BadFormat =>
      assert s[0] == 'I';
      NoQuotingPrefix(s);
    case BadCertificate =>
      assert s[0] == 'S';
      NoQuotingPrefix(s);
    case RedirectLoop =>
      assert s[0] == 'T';
      NoQuotingPrefix(s);
  }

  /** Every error text names its reason unambiguously, down to the status code, the
      Content-Type and the exception message it quotes. */
  lemma MessageRoundTrip(reason: Rejection)
    ensures ParseMessage(Message(reason)) == Some(reason)
  {
    match reason
    case Unreachable(status) => UnreachableRoundTrip(status);
    case NotHtml(contentType) => NotHtmlRoundTrip(contentType);
    case ConnectionFailed(message) => ConnectionFailedRoundTrip(message);
    case _ => FixedRoundTrip(reason);
  }

  /** The error a rejected URL gets identifies why it was rejected. */
  lemma ErrorIdentifiesReason(url: string, probe: Probe)
    requires !ValidateGateway(url, probe).valid
    ensures ParseMessage(ValidateGateway(url, probe).error.value) == Diagnose(url, probe)
  {
    MessageRoundTrip(Diagnose(url, probe).value);
  }
}
