/**
 * The tags recorded for every client HTTP request made through a REST
 * template: method, uri, status and clientName, with defaults for what is
 * missing.
 */
module RestTemplateTags {
  import opened Wrappers
  import opened Meters

  datatype HttpMethod = Get | Head | Post | Put | Patch | Delete | Options | Trace {

    /** The enum constant's name. */
    function Name(): string {
      match this
      case Get => "GET"
      case Head => "HEAD"
      case Post => "POST"
      case Put => "PUT"
      case Patch => "PATCH"
      case Delete => "DELETE"
      case Options => "OPTIONS"
      case Trace => "TRACE"
    }
  }

  /** A request as the tags see it: its method and the host of its URI, which may be missing. */
  datatype HttpRequest = HttpRequest(httpMethod: HttpMethod, host: Option<string>)

  /** Reading a response's raw status code either yields it or fails with an I/O error. */
  datatype RawStatus = StatusCode(code: int) | StatusUnreadable

  // ---------------------------------------------------------------------------
  // Decimal rendering of the status code, and its inverse.

  predicate IsDigits(s: string) {
    forall i :: 0 <= i < |s| ==> '0' <= s[i] <= '9'
  }

  function DigitChar(d: nat): (c: char)
    requires d < 10
    ensures '0' <= c <= '9'
  {
    (('0' as int) + d) as char
  }

  function DigitValue(c: char): nat
    requires '0' <= c <= '9'
  {
    (c as int) - ('0' as int)
  }

  /** The decimal digits of `n`, most significant first, without leading zeros. */
  function NaturalString(n: nat): (s: string)
    ensures |s| >= 1 && IsDigits(s)
    ensures s[0] == '0' ==> n == 0 && s == "0"
    decreases n
  {
    if n < 10 then [DigitChar(n)] else NaturalString(n / 10) + [DigitChar(n % 10)]
  }

  /** At least one digit, and no leading zero unless the number is zero. */
  predicate CanonicalNatural(t: string) {
    |t| >= 1 && IsDigits(t) && (t[0] == '0' ==> t == "0")
  }

  /** The one spelling `Integer.toString` gives a number: canonical digits, with a minus sign only before a non-zero magnitude. */
  predicate Canonical(s: string) {
    || CanonicalNatural(s)
    || (|s| >= 2 && s[0] == '-' && CanonicalNatural(s[1..]) && s[1] != '0')
  }

  /** `Integer.toString`: a minus sign for negative numbers, then the digits of the magnitude. */
  function DecimalString(n: int): (s: string)
    ensures |s| >= 1 && Canonical(s)
    ensures n < 0 <==> s[0] == '-'
  {
    if n < 0 then "-" + NaturalString(-n) else NaturalString(n)
  }

  function ParseNatural(s: string): nat
    requires IsDigits(s)
    decreases |s|
  {
    if s == [] then 0 else ParseNatural(s[..|s| - 1]) * 10 + DigitValue(s[|s| - 1])
  }

  /** Reading a decimal back: an optional minus sign and at least one digit; anything else is not a number. */
  function ParseDecimal(s: string): Option<int> {
    if |s| >= 2 && s[0] == '-' && IsDigits(s[1..]) then Some(0 - ParseNatural(s[1..]) as int)
    else if |s| >= 1 && IsDigits(s) then Some(ParseNatural(s))
    else None
  }

  lemma {:induction false} NaturalRoundTrip(n: nat)
    ensures ParseNatural(NaturalString(n)) == n
    decreases n
  {
    if n >= 10 {
      var s := NaturalString(n);
      assert s[..|s| - 1] == NaturalString(n / 10);
      NaturalRoundTrip(n / 10);
    }
  }

  /** Rendering then reading back gives the number again. */
  lemma DecimalRoundTrip(n: int)
    ensures ParseDecimal(DecimalString(n)) == Some(n)
  {
    var s := DecimalString(n);
    if n < 0 {
      var digits := NaturalString(-n);
      NaturalRoundTrip(-n);
      assert s[1..] == digits;
      assert |s| >= 2 && s[0] == '-' && IsDigits(s[1..]);
    } else {
      NaturalRoundTrip(n);
      assert s[0] != '-';
      assert IsDigits(s);
    }
  }

  lemma DigitCharOfValue(c: char)
    requires '0' <= c <= '9'
    ensures DigitChar(DigitValue(c)) == c
  {
  }

  /** Canonical digits are exactly what rendering their value gives. */
  lemma {:induction false} CanonicalNaturalRoundTrip(t: string)
    requires CanonicalNatural(t)
    ensures NaturalString(ParseNatural(t)) == t
    decreases |t|
  {
    var d := t[|t| - 1];
    DigitCharOfValue(d);
    if |t| >= 2 {
      var init := t[..|t| - 1];
      assert init[0] == t[0] && t != "0";
      assert CanonicalNatural(init);
      CanonicalNaturalRoundTrip(init);
      var m := ParseNatural(init);
      assert m != 0;
      var n := ParseNatural(t);
      assert n == m * 10 + DigitValue(d);
      assert n / 10 == m && n % 10 == DigitValue(d);
      assert t == init + [d];
    }
  }

  /**
   * A canonical spelling reads back as a number whose rendering is that very
   * spelling: with `DecimalRoundTrip`, rendering is a bijection between the
   * integers and the canonical strings.
   */
  lemma CanonicalRoundTrip(s: string)
    requires Canonical(s)
    ensures ParseDecimal(s).Some? && DecimalString(ParseDecimal(s).value) == s
  {
    if CanonicalNatural(s) {
      CanonicalNaturalRoundTrip(s);
    } else {
      var t := s[1..];
      CanonicalNaturalRoundTrip(t);
      assert s == "-" + t;
    }
  }

  /**
   * The status tag: CLIENT_ERROR without a response, IO_ERROR when the status
   * cannot be read, and otherwise the decimal status code.
   */
  function StatusTag(response: Option<RawStatus>): (s: string)
    ensures response.None? ==> s == "CLIENT_ERROR"
    ensures response == Some(StatusUnreadable) ==> s == "IO_ERROR"
    ensures response.Some? && response.value.StatusCode? ==>
              Canonical(s) && ParseDecimal(s) == Some(response.value.code) && s == DecimalString(response.value.code)
  {
    match response
    case None => "CLIENT_ERROR"
    case Some(StatusUnreadable) => "IO_ERROR"
    case Some(StatusCode(code)) => DecimalRoundTrip(code); DecimalString(code)
  }

  // ---------------------------------------------------------------------------
  // Stripping a leading scheme and host from the URL template.

  predicate StartsWith(s: string, prefix: string) {
    |prefix| <= |s| && s[..|prefix|] == prefix
  }

  /** A non-empty run of characters other than '/', then a '/'. */
  predicate HostThenSlash(t: string) {
    |t| >= 2 && t[|t| - 1] == '/' && forall i :: 0 <= i < |t| - 1 ==> t[i] != '/'
  }

  /** What `^https?://[^/]+/` matches: a scheme, a non-empty host without '/', and a '/'. */
  predicate IsHostPrefix(p: string) {
    || (StartsWith(p, "http://") && HostThenSlash(p[7..]))
    || (StartsWith(p, "https://") && HostThenSlash(p[8..]))
  }

  /** The position of the first '/', if any. */
  function FirstSlash(s: string): (r: Option<nat>)
    ensures r.Some? ==> r.value < |s| && s[r.value] == '/' && forall j :: 0 <= j < r.value ==> s[j] != '/'
    ensures r.None? ==> forall j :: 0 <= j < |s| ==> s[j] != '/'
  {
    if s == [] then None
    else if s[0] == '/' then Some(0)
    else match FirstSlash(s[1..])
      case None => None
      case Some(k) => Some(k + 1)
  }

  /** The length of a leading "http://" or "https://", or 0. */
  function SchemeLength(s: string): nat {
    if StartsWith(s, "http://") then 7 else if StartsWith(s, "https://") then 8 else 0
  }

  /**
   * The template with a leading match of `^https?://[^/]+/` removed. The
   * result is a suffix of the template, and anything removed is such a match.
   */
  function StripUrlTemplate(s: string): (r: string)
    ensures |r| <= |s| && r == s[|s| - |r|..]
    ensures r != s ==> IsHostPrefix(s[..|s| - |r|])
  {
    var p := SchemeLength(s);
    if p == 0 then s
    else match FirstSlash(s[p..])
      case None => s
      case Some(k) =>
        if k == 0 then s
        else
          assert s[..p + k + 1][p..] == s[p..][..k + 1];
          s[p + k + 1..]
  }

  /** A template that does not start with "http://" or "https://" is kept as it is. */
  lemma StripKeepsRelativeTemplates(s: string)
    requires !StartsWith(s, "http://") && !StartsWith(s, "https://")
    ensures StripUrlTemplate(s) == s
  {
  }

  /** `http(s)://host/rest`, with a non-empty host free of '/', becomes `rest`. */
  lemma StripRemovesSchemeAndHost(secure: bool, host: string, rest: string)
    requires host != [] && forall i :: 0 <= i < |host| ==> host[i] != '/'
    ensures StripUrlTemplate((if secure then "https://" else "http://") + host + "/" + rest) == rest
  {
    var scheme := if secure then "https://" else "http://";
    var s := scheme + host + "/" + rest;
    assert s[..|scheme|] == scheme;
    if secure {
      assert s[4] == 's';
    }
    assert SchemeLength(s) == |scheme|;
    var t := s[|scheme|..];
    assert t == host + "/" + rest;
    assert t[|host|] == '/';
    assert forall j :: 0 <= j < |host| ==> t[j] == host[j];
    assert FirstSlash(t) == Some(|host|);
    assert s[|scheme| + |host| + 1..] == rest;
  }

  // ---------------------------------------------------------------------------
  // The tags.

  /** Builds the request tags; `formatTagValue` is the backend's tag-value formatter. */
  datatype RestTemplateTagConfigurer = RestTemplateTagConfigurer(formatTagValue: string -> string) {

    /**
     * method, uri, status and clientName, in this order. A missing URL
     * template reads as "none", a missing host as "none".
     */
    function ClientHttpRequestTags(request: HttpRequest, response: Option<RawStatus>, urlTemplate: Option<string>)
      : (tags: seq<Tag>)
      ensures |tags| == 4
      ensures tags[0].key == "method" && tags[1].key == "uri" && tags[2].key == "status" && tags[3].key == "clientName"
      ensures tags[0].value == request.httpMethod.Name()
      ensures urlTemplate.None? ==> tags[1].value == formatTagValue("none")
      ensures urlTemplate.Some? ==> tags[1].value == formatTagValue(StripUrlTemplate(urlTemplate.value))
      ensures tags[2].value == StatusTag(response)
      ensures request.host.None? ==> tags[3].value == "none"
      ensures request.host.Some? ==> tags[3].value == request.host.value
    {
      var template := urlTemplate.GetOr("none");
      var status := StatusTag(response);
      var host := request.host.GetOr("none");
      [Tag("method", request.httpMethod.Name()),
       Tag("uri", formatTagValue(StripUrlTemplate(template))),
       Tag("status", status),
       Tag("clientName", host)]
    }
  }
}
