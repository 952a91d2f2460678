/** The CORS `origin` callback: which browser origins may call the API. */
module Cors {
  import opened Types

  /** `value ? value.replace(/\/$/, '') : value` on a string that may be absent. */
  function Normalize(value: Option<string>): (r: Option<string>)
    ensures r.Some? <==> value.Some?
    ensures value.Some? ==> value.value == r.value || value.value == r.value + "/"
    ensures value.Some? && |value.value| > 0 && value.value[|value.value| - 1] == '/' ==> |r.value| == |value.value| - 1
  {
    match value
    case None => None
    case Some(s) => Some(DropTrailingSlash(s))
  }

  function DropTrailingSlash(s: string): string
  {
    if |s| > 0 && s[|s| - 1] == '/' then s[..|s| - 1] else s
  }

  /** `url.replace(/^http:\/\//, 'https://')`. */
  function HttpsVariant(url: string): (r: string)
    ensures |url| >= 7 && url[..7] == "http://" ==> r == "https://" + url[7..]
    ensures !(|url| >= 7 && url[..7] == "http://") ==> r == url
  {
    if |url| >= 7 && url[..7] == "http://" then "https://" + url[7..] else url
  }

  /** The list before filtering: the configured frontend URL, its https form, and the three
      fixed development origins. */
  function Candidates(frontendUrl: string): seq<string>
  {
    [frontendUrl, HttpsVariant(frontendUrl), "http://localhost:3000", "http://127.0.0.1:3000", "http://frontend:3000"]
  }

  /** `.filter(Boolean).map(normalize)`. */
  function NormalizeAll(entries: seq<string>): (r: seq<string>)
  {
    if |entries| == 0 then []
    else if entries[0] == "" then NormalizeAll(entries[1..])
    else [DropTrailingSlash(entries[0])] + NormalizeAll(entries[1..])
  }

  function AllowedOrigins(frontendUrl: string): seq<string>
  {
    NormalizeAll(Candidates(frontendUrl))
  }

  datatype Decision = Allow | Deny(message: string)

  /** The callback's answer for a request whose Origin header is `origin`. */
  function Decide(origin: Option<string>, frontendUrl: string): (r: Decision)
    ensures r.Deny? ==> r.message == "Not allowed by CORS"
  {
    var normalized := Normalize(origin);
    if normalized.None? || normalized.value == "" || normalized.value in AllowedOrigins(frontendUrl) then Allow
    else Deny("Not allowed by CORS")
  }

  lemma {:induction false} NormalizeAllHas(entries: seq<string>, s: string)
    ensures s in NormalizeAll(entries) <==> exists e | e in entries :: e != "" && DropTrailingSlash(e) == s
  {
    if |entries| > 0 {
      NormalizeAllHas(entries[1..], s);
      assert forall e | e in entries :: e == entries[0] || e in entries[1..];
    }
  }

  /** A request without an Origin header (same-origin or non-browser) is always let through. */
  lemma AbsentOriginAllowed(frontendUrl: string)
    ensures Decide(None, frontendUrl) == Allow
  {
  }

  /** An origin is allowed exactly when it normalises to the empty string (`""` and `"/"`, let
      through unlisted) or equals, after normalisation, some non-empty allow-list entry after
      normalisation. */
  lemma AllowedIffListed(origin: string, frontendUrl: string)
    ensures Decide(Some(origin), frontendUrl) == Allow
        <==> DropTrailingSlash(origin) == ""
             || exists e | e in Candidates(frontendUrl) :: e != "" && DropTrailingSlash(e) == DropTrailingSlash(origin)
  {
    NormalizeAllHas(Candidates(frontendUrl), DropTrailingSlash(origin));
  }

  /** The three development origins are always allowed, with or without a trailing slash. */
  lemma DevelopmentOriginsAllowed(frontendUrl: string)
    ensures Decide(Some("http://localhost:3000/"), frontendUrl) == Allow
    ensures Decide(Some("http://127.0.0.1:3000"), frontendUrl) == Allow
    ensures Decide(Some("http://frontend:3000"), frontendUrl) == Allow
  {
    assert "http://localhost:" + "3000" == Candidates(frontendUrl)[2];
    assert "http://localhost:" + "3000/" == "http://localhost:3000/";
    PortOriginAllowed(frontendUrl, "http://localhost:", 2);
    assert "http://127.0.0.1:" + "3000" == Candidates(frontendUrl)[3];
    PortOriginAllowed(frontendUrl, "http://127.0.0.1:", 3);
    assert "http://frontend:" + "3000" == Candidates(frontendUrl)[4];
    PortOriginAllowed(frontendUrl, "http://frontend:", 4);
  }

  /** A fixed entry ending in the port is allowed as written and with a trailing slash. */
  lemma PortOriginAllowed(frontendUrl: string, host: string, i: nat)
    requires 2 <= i < 5 && Candidates(frontendUrl)[i] == host + "3000"
    ensures Decide(Some(host + "3000"), frontendUrl) == Allow
    ensures Decide(Some(host + "3000/"), frontendUrl) == Allow
  {
    var s := host + "3000";
    assert DropTrailingSlash(s) == s by {
      assert s[|s| - 1] == "3000"[3];
    }
    assert DropTrailingSlash(s + "/") == s by {
      assert (s + "/")[..|s|] == s;
    }
    assert host + "3000/" == s + "/";
    ListedAllowed(frontendUrl, s, i);
    ListedAllowed(frontendUrl, s + "/", i);
  }

  /** An origin that normalises to a non-empty allow-list entry is allowed. */
  lemma ListedAllowed(frontendUrl: string, origin: string, i: nat)
    requires i < 5 && Candidates(frontendUrl)[i] != ""
    requires DropTrailingSlash(origin) != "" && DropTrailingSlash(Candidates(frontendUrl)[i]) == DropTrailingSlash(origin)
    ensures Decide(Some(origin), frontendUrl) == Allow
  {
    var c := Candidates(frontendUrl);
    NormalizeAllHas(c, DropTrailingSlash(origin));
    assert c[i] in c;
  }

  /** The configured frontend URL is allowed under http and, when it is an http URL, under
      https as well. */
  lemma FrontendAllowed(frontendUrl: string)
    requires DropTrailingSlash(frontendUrl) != ""
    ensures Decide(Some(frontendUrl), frontendUrl) == Allow
    ensures Decide(Some(HttpsVariant(frontendUrl)), frontendUrl) == Allow
  {
    var c := Candidates(frontendUrl);
    NormalizeAllHas(c, DropTrailingSlash(frontendUrl));
    NormalizeAllHas(c, DropTrailingSlash(HttpsVariant(frontendUrl)));
    assert c[0] == frontendUrl && c[1] == HttpsVariant(frontendUrl);
  }
}
