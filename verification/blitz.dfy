/**
 * The string and arithmetic helpers of the Blitz panel client
 * (automation-service/blitz_client.py): base-URL normalisation, the public base,
 * the subscription and `hy2://` URLs, the client configuration and the create
 * payload. The HTTP calls are not modelled; what `get_user` returns is a parameter.
 */
module Blitz {
  import opened Common

  datatype BlitzClient = BlitzClient(baseUrl: string, apiToken: string)

  /** Python's `s.rstrip(c)` for one character. */
  function RStrip(s: string, c: char): (r: string)
    ensures r <= s
    ensures r == [] || r[|r| - 1] != c
    ensures forall k :: |r| <= k < |s| ==> s[k] == c
    decreases |s|
  {
    if s != [] && s[|s| - 1] == c then RStrip(s[..|s| - 1], c) else s
  }

  /** Any number of trailing copies of `c` are taken off, and nothing else. */
  lemma {:induction false} RStripTrailing(b: string, c: char, n: nat)
    requires b == [] || b[|b| - 1] != c
    ensures RStrip(b + seq(n, _ => c), c) == b
    decreases n
  {
    if n > 0 {
      var s := b + seq(n, _ => c);
      assert s[..|s| - 1] == b + seq(n - 1, _ => c);
      RStripTrailing(b, c, n - 1);
    }
  }

  /** `BlitzClient.__init__`: trailing slashes are dropped from the base URL. */
  function NewClient(baseUrl: string, apiToken: string): (c: BlitzClient)
    ensures c.baseUrl <= baseUrl && c.apiToken == apiToken
    ensures c.baseUrl == [] || c.baseUrl[|c.baseUrl| - 1] != '/'
    ensures forall k :: |c.baseUrl| <= k < |baseUrl| ==> baseUrl[k] == '/'
  {
    BlitzClient(RStrip(baseUrl, '/'), apiToken)
  }

  predicate EndsWith(s: string, suffix: string) {
    |suffix| <= |s| && s[|s| - |suffix|..] == suffix
  }

  const ApiSuffix: string := "/api"

  /** `_public_base_url`: one trailing `/api` is removed. */
  function PublicBaseUrl(c: BlitzClient): string {
    if EndsWith(c.baseUrl, ApiSuffix) then c.baseUrl[..|c.baseUrl| - 4] else c.baseUrl
  }

  /** The public base is the base URL, less a final `/api` if there is one. */
  lemma PublicBaseUrlCases(c: BlitzClient)
    ensures EndsWith(c.baseUrl, ApiSuffix) ==> PublicBaseUrl(c) + ApiSuffix == c.baseUrl
    ensures !EndsWith(c.baseUrl, ApiSuffix) ==> PublicBaseUrl(c) == c.baseUrl
  {
  }

  lemma PublicBaseUrlOfApi(base: string, token: string)
    ensures PublicBaseUrl(BlitzClient(base + ApiSuffix, token)) == base
  {
    var u := base + ApiSuffix;
    assert u[|u| - 4..] == ApiSuffix;
    assert u[..|u| - 4] == base;
  }

  /** The two cases of automation-service/tests/test_blitz_client.py, on a two-argument constructor. */
  lemma PublicBaseUrlExamples()
    ensures PublicBaseUrl(NewClient("http://blitz:8000/api", "u")) == "http://blitz:8000"
    ensures PublicBaseUrl(NewClient("http://blitz:8000", "u")) == "http://blitz:8000"
  {
    RStripTrailing("http://blitz:8000/api", '/', 0);
    assert "http://blitz:8000/api" + seq(0, _ => '/') == "http://blitz:8000/api";
    PublicBaseUrlOfApi("http://blitz:8000", "u");
    assert "http://blitz:8000" + ApiSuffix == "http://blitz:8000/api";
    RStripTrailing("http://blitz:8000", '/', 0);
    assert "http://blitz:8000" + seq(0, _ => '/') == "http://blitz:8000";
    assert !EndsWith("http://blitz:8000", ApiSuffix) by {
      assert "http://blitz:8000"[13..] == "8000";
    }
  }

  const SubPath: string := "/sub/"

  /** `get_subscription_url`. */
  function SubscriptionUrl(c: BlitzClient, username: string): string {
    PublicBaseUrl(c) + SubPath + username
  }

  /** The username comes back out of the subscription URL, behind the public base. */
  lemma SubscriptionUrlParts(c: BlitzClient, username: string)
    ensures var u := SubscriptionUrl(c, username); var n := |PublicBaseUrl(c)| + |SubPath|;
      |u| == n + |username| && u[..n] == PublicBaseUrl(c) + SubPath && u[n..] == username
  {
  }

  // ----- server domain and the hy2:// URL

  const HttpScheme: string := "http://"
  const HttpsScheme: string := "https://"

  /** `base_url.replace('http://', '').replace('https://', '').split(':')[0]`. */
  function ServerDomain(c: BlitzClient): (d: string)
    ensures ':' !in d
  {
    Split(RemoveAll(RemoveAll(c.baseUrl, HttpScheme), HttpsScheme), ':')[0]
  }

  /** No scheme occurrence starts in `host + ":"` when the host has no colon and no `/` follows the colon. */
  lemma NoSchemeBeforePort(host: string, rest: string, p: string, k: nat)
    requires 0 < k && k + 1 < |p| && p[k] == ':' && p[k + 1] == '/'
    requires forall j :: 0 <= j < k ==> p[j] != ':'
    requires ':' !in host && (rest == [] || rest[0] != '/')
    ensures forall i :: 0 <= i < |host + ":"| ==> !OccursAt(host + ":" + rest, p, i)
  {
    var s := host + ":" + rest;
    assert s[|host|] == ':';
    forall i | 0 <= i < |host + ":"| ensures !OccursAt(s, p, i) {
      if i + |p| <= |s| {
        var w := s[i..i + |p|];
        var off := |host| - i;
        if off < k {
          assert w[off] == ':' != p[off];
        } else if off == k {
          assert w[k + 1] == rest[0] != p[k + 1];
        } else {
          assert w[k] == host[i + k] != p[k];
        }
      }
    }
  }

  /** `http://` never starts inside the `https://` prefix. */
  lemma HttpNotInHttpsPrefix(q: string, rest: string)
    requires forall i :: 0 <= i < |q| ==> !OccursAt(q + rest, HttpScheme, i)
    ensures forall i :: 0 <= i < |HttpsScheme + q| ==> !OccursAt(HttpsScheme + q + rest, HttpScheme, i)
  {
    var t := HttpsScheme + q + rest;
    forall i | 0 <= i < |HttpsScheme + q| ensures !OccursAt(t, HttpScheme, i) {
      if i + |HttpScheme| <= |t| {
        var w := t[i..i + |HttpScheme|];
        if i == 0 {
          assert w[4] == 's' != HttpScheme[4];
        } else if i < |HttpsScheme| {
          assert w[0] == HttpsScheme[i] != HttpScheme[0];
        } else {
          assert w == (q + rest)[i - |HttpsScheme|..i - |HttpsScheme| + |HttpScheme|];
          assert !OccursAt(q + rest, HttpScheme, i - |HttpsScheme|);
        }
      }
    }
  }

  /** With `http://`, the first removal takes off the scheme and acts on the rest only. */
  lemma HttpRemovedFromHttp(host: string, rest: string)
    requires ':' !in host && (rest == [] || '0' <= rest[0] <= '9')
    ensures RemoveAll(HttpScheme + (host + ":" + rest), HttpScheme) == host + ":" + RemoveAll(rest, HttpScheme)
  {
    NoSchemeBeforePort(host, rest, HttpScheme, 4);
    RemoveAllLeading(HttpScheme, host + ":" + rest);
    RemoveAllKeepsPrefix(host + ":", rest, HttpScheme);
  }

  /** With `https://`, the first removal keeps the scheme and acts on the rest only. */
  lemma HttpRemovedFromHttps(host: string, rest: string)
    requires ':' !in host && (rest == [] || '0' <= rest[0] <= '9')
    ensures RemoveAll(HttpsScheme + (host + ":") + rest, HttpScheme) == HttpsScheme + (host + ":") + RemoveAll(rest, HttpScheme)
  {
    NoSchemeBeforePort(host, rest, HttpScheme, 4);
    HttpNotInHttpsPrefix(host + ":", rest);
    RemoveAllKeepsPrefix(HttpsScheme + (host + ":"), rest, HttpScheme);
  }

  /** The second removal leaves `host:` in front and acts on the rest only. */
  lemma HttpsRemoved(host: string, r1: string)
    requires ':' !in host && (r1 == [] || r1[0] != '/')
    ensures RemoveAll(host + ":" + r1, HttpsScheme) == host + ":" + RemoveAll(r1, HttpsScheme)
  {
    NoSchemeBeforePort(host, r1, HttpsScheme, 5);
    RemoveAllKeepsPrefix(host + ":", r1, HttpsScheme);
  }

  lemma SchemesRemovedHttp(host: string, rest: string)
    requires ':' !in host && (rest == [] || '0' <= rest[0] <= '9')
    ensures RemoveAll(RemoveAll(HttpScheme + (host + ":" + rest), HttpScheme), HttpsScheme)
         == host + ":" + RemoveAll(RemoveAll(rest, HttpScheme), HttpsScheme)
  {
    if rest != [] {
      RemoveAllFirst(rest, HttpScheme);
    }
    HttpRemovedFromHttp(host, rest);
    HttpsRemoved(host, RemoveAll(rest, HttpScheme));
  }

  lemma SchemesRemovedHttps(host: string, rest: string)
    requires ':' !in host && (rest == [] || '0' <= rest[0] <= '9')
    ensures RemoveAll(RemoveAll(HttpsScheme + (host + ":") + rest, HttpScheme), HttpsScheme)
         == host + ":" + RemoveAll(RemoveAll(rest, HttpScheme), HttpsScheme)
  {
    var q := host + ":";
    var r1 := RemoveAll(rest, HttpScheme);
    if rest != [] {
      RemoveAllFirst(rest, HttpScheme);
    }
    HttpRemovedFromHttps(host, rest);
    assert HttpsScheme + q + r1 == HttpsScheme + (q + r1);
    RemoveAllLeading(HttpsScheme, q + r1);
    HttpsRemoved(host, r1);
  }

  /**
   * For a base URL `scheme://host:rest`, where the host has no colon and the part
   * after the colon is empty or starts with a port digit, the server domain is exactly the host.
   */
  lemma ServerDomainOfUrl(scheme: string, host: string, rest: string, token: string)
    requires scheme == HttpScheme || scheme == HttpsScheme
    requires ':' !in host && (rest == [] || '0' <= rest[0] <= '9')
    ensures ServerDomain(BlitzClient(scheme + host + ":" + rest, token)) == host
  {
    if scheme == HttpScheme {
      assert scheme + host + ":" + rest == HttpScheme + (host + ":" + rest);
      SchemesRemovedHttp(host, rest);
    } else {
      assert scheme + host + ":" + rest == HttpsScheme + (host + ":") + rest;
      SchemesRemovedHttps(host, rest);
    }
    var tail := RemoveAll(RemoveAll(rest, HttpScheme), HttpsScheme);
    assert host + ":" + tail == host + [':'] + tail;
    SplitCons(host, ':', tail);
  }

  /** The default panel URL `http://blitz:8000/api` serves subscriptions from `http://blitz:8000`. */
  lemma DefaultSubscriptionUrl(token: string, username: string)
    ensures SubscriptionUrl(NewClient("http://blitz:8000/api", token), username) == "http://blitz:8000/sub/" + username
  {
    PublicBaseUrlExamples();
    assert PublicBaseUrl(NewClient("http://blitz:8000/api", token)) == PublicBaseUrl(NewClient("http://blitz:8000/api", "u"));
  }

  /** The default panel URL names server `blitz`. */
  lemma DefaultServerDomain(token: string)
    ensures ServerDomain(NewClient("http://blitz:8000/api", token)) == "blitz"
  {
    var u := "http://blitz:8000/api";
    RStripTrailing(u, '/', 0);
    assert u + seq(0, _ => '/') == u;
    assert u == HttpScheme + "blitz" + ":" + "8000/api";
    ServerDomainOfUrl(HttpScheme, "blitz", "8000/api", token);
  }

  /** A string that does not start like the pattern keeps its first character. */
  lemma RemoveAllFirst(s: string, p: string)
    requires s != [] && p != [] && s[0] != p[0]
    ensures RemoveAll(s, p) != [] && RemoveAll(s, p)[0] == s[0]
  {
    if |s| >= |p| {
      assert s[..|p|][0] != p[0];
    }
  }

  const Hy2Port: string := ":443"
  const Hy2Query: string := "/?sni=dl.google.com&insecure=0#CorporateVPN_"

  /** The part of `get_user`'s answer the helpers read. */
  datatype PanelUser = PanelUser(authKey: Option<string>, sni: Option<string>)

  /** `get_hy2_url` and `get_user_config` raise `ValueError` when the panel knows no such user. */
  datatype Lookup<T> = Found(value: T) | UserNotFound

  /** The `hy2://` URL for a user the panel returned. */
  function Hy2Url(c: BlitzClient, user: PanelUser, username: string): string {
    "hy2://" + user.authKey.GetOr("") + "@" + ServerDomain(c) + Hy2Port + Hy2Query + username
  }

  function GetHy2Url(c: BlitzClient, user: Option<PanelUser>, username: string): (r: Lookup<string>)
    ensures r.UserNotFound? <==> user.None?
  {
    if user.None? then UserNotFound else Found(Hy2Url(c, user.value, username))
  }

  datatype ServerConfig = ServerConfig(
    server: string,
    auth: string,
    sni: string,
    insecure: bool,
    up: string,
    down: string,
    masqueradeType: string,
    proxyUrl: string,
    rewriteHost: bool,
    acl: seq<string>)

  const Acl: seq<string> := ["# Corporate networks", "192.168.0.0/16", "10.0.0.0/8",
                              "# Block other private networks", "!172.16.0.0/12", "*"]

  /** `get_user_config`: the Hysteria2 client configuration. */
  function GetUserConfig(c: BlitzClient, user: Option<PanelUser>): (r: Lookup<ServerConfig>)
    ensures r.UserNotFound? <==> user.None?
  {
    if user.None? then UserNotFound
    else Found(ServerConfig(ServerDomain(c) + Hy2Port, user.value.authKey.GetOr(""),
                            user.value.sni.GetOr("dl.google.com"), false, "100 mbps", "100 mbps",
                            "proxy", "https://dl.google.com", true, Acl))
  }

  /**
   * The URL and the configuration point at the same server with the same key; the SNI
   * agrees unless the panel stores a different one, which the URL ignores.
   */
  lemma ConfigMatchesUrl(c: BlitzClient, user: PanelUser, username: string)
    ensures var cfg := GetUserConfig(c, Some(user)).value;
      && GetHy2Url(c, Some(user), username) == Found("hy2://" + cfg.auth + "@" + cfg.server + Hy2Query + username)
      && cfg.server[|cfg.server| - 4..] == Hy2Port
      && (forall k :: 0 <= k < |cfg.server| - 4 ==> cfg.server[k] != ':')
      && (cfg.sni == "dl.google.com" <==> user.sni.None? || user.sni == Some("dl.google.com"))
  {
    var cfg := GetUserConfig(c, Some(user)).value;
    var d := ServerDomain(c);
    var k := user.authKey.GetOr("");
    assert cfg.server == d + Hy2Port;
    assert "hy2://" + k + "@" + d + Hy2Port + Hy2Query + username == "hy2://" + k + "@" + (d + Hy2Port) + Hy2Query + username;
    forall k | 0 <= k < |cfg.server| - 4 ensures cfg.server[k] != ':' {
      assert cfg.server[k] == d[k];
    }
  }

  // ----- the create payload

  datatype CreatePayload = CreatePayload(
    username: string,
    authKey: string,
    expiryTime: int,
    dataLimit: int,
    enable: bool,
    protocol: string)

  const SecondsPerDay: int := 24 * 60 * 60
  const BytesPerGb: int := 1024 * 1024 * 1024

  /** The payload `create_user` posts; `authKey` is the `secrets.token_urlsafe(32)` draw. */
  function CreateUserPayload(username: string, authKey: string, expiryDays: int, dataLimitGb: int): (p: CreatePayload)
    ensures p.username == username && p.authKey == authKey && p.enable && p.protocol == "hysteria2"
    ensures p.expiryTime >= 0 && p.dataLimit >= 0
  {
    CreatePayload(username, authKey,
                  if expiryDays > 0 then expiryDays * SecondsPerDay else 0,
                  if dataLimitGb > 0 then dataLimitGb * BytesPerGb else 0,
                  true, "hysteria2")
  }

  /**
   * The payload's numbers convert back to whole days and gigabytes; 0 means "no limit"
   * and is what every non-positive argument becomes.
   */
  lemma PayloadUnits(username: string, authKey: string, expiryDays: int, dataLimitGb: int)
    ensures var p := CreateUserPayload(username, authKey, expiryDays, dataLimitGb);
      && p.expiryTime % SecondsPerDay == 0 && p.dataLimit % BytesPerGb == 0
      && p.expiryTime / SecondsPerDay == (if expiryDays > 0 then expiryDays else 0)
      && p.dataLimit / BytesPerGb == (if dataLimitGb > 0 then dataLimitGb else 0)
      && (p.expiryTime == 0 <==> expiryDays <= 0)
      && (p.dataLimit == 0 <==> dataLimitGb <= 0)
  {
  }
}
