/** The settings object of web/app/config.py, read once from the process
    environment (a map from variable name to value). */
module Config {
  import opened Common
  import opened Text

  type Env = map<string, string>

  /** `os.environ.get(name, fallback)`. */
  function Get(env: Env, name: string, fallback: string): string
  {
    if name in env then env[name] else fallback
  }

  const CoingeckoDefaultUrl: string := "https://api.coingecko.com/api/v3"
  const CoincapDefaultUrl: string := "https://api.coincap.io/v2"

  /** Both built-in base URLs are clean. */
  lemma DefaultUrlsClean()
    ensures CleanUrl(CoingeckoDefaultUrl) && CleanUrl(CoincapDefaultUrl)
  {
    assert forall k :: 0 <= k < |CoingeckoDefaultUrl| ==> CoingeckoDefaultUrl[k] != '?' && CoingeckoDefaultUrl[k] != '#';
    assert forall k :: 0 <= k < |CoincapDefaultUrl| ==> CoincapDefaultUrl[k] != '?' && CoincapDefaultUrl[k] != '#';
  }

  /** A base URL as the rest of the application expects it: no query, no
      fragment, no trailing slash. */
  predicate CleanUrl(u: string)
  {
    u != [] && '?' !in u && '#' !in u && u[|u| - 1] != '/'
  }

  /** `s.split("?", 1)[0].split("#", 1)[0].rstrip("/")`: a prefix of `s`
      that stops just before a `/`, `?` or `#` when it stops early. */
  function CutUrl(s: string): (b: string)
    ensures '?' !in b && '#' !in b && (b == [] || b[|b| - 1] != '/')
    ensures |b| <= |s| && b == s[..|b|]
    ensures |b| < |s| ==> s[|b|] == '/' || s[|b|] == '?' || s[|b|] == '#'
    ensures |b| <= |CutAt(CutAt(s, '?'), '#')|
    ensures forall k :: |b| <= k < |CutAt(CutAt(s, '?'), '#')| ==> s[k] == '/'
  {
    var q := CutAt(s, '?');
    var h := CutAt(q, '#');
    var b := RStripChar(h, '/');
    assert h == s[..|h|];
    StripSlashesOfPrefix(s, h);
    CutUrlStops(s);
    CutUrlAvoids(s);
    b
  }

  /** Where the cut stops early, `s` holds a `/`, `?` or `#`. */
  lemma CutUrlStops(s: string)
    ensures var b := RStripChar(CutAt(CutAt(s, '?'), '#'), '/');
            |b| < |s| ==> s[|b|] == '/' || s[|b|] == '?' || s[|b|] == '#'
  {
    var q := CutAt(s, '?');
    var h := CutAt(q, '#');
    var b := RStripChar(h, '/');
    assert h == s[..|h|];
    if |b| < |h| {
      assert h[|b|] == '/';
    } else if |h| < |q| {
      assert q[|h|] == '#';
    }
  }

  /** The cut holds no `?` and no `#`. */
  lemma CutUrlAvoids(s: string)
    ensures var b := RStripChar(CutAt(CutAt(s, '?'), '#'), '/');
            '?' !in b && '#' !in b
  {
    var q := CutAt(s, '?');
    var h := CutAt(q, '#');
    var b := RStripChar(h, '/');
    assert forall k :: 0 <= k < |b| ==> b[k] == h[k] == q[k];
  }

  /** Trailing slashes stripped from a prefix `h` of `s` leave a prefix of
      `s`, and what they removed are slashes of `s`. */
  lemma StripSlashesOfPrefix(s: string, h: string)
    requires |h| <= |s| && h == s[..|h|]
    ensures RStripChar(h, '/') == s[..|RStripChar(h, '/')|]
    ensures forall k :: |RStripChar(h, '/')| <= k < |h| ==> s[k] == '/'
  {
    var b := RStripChar(h, '/');
    assert forall k :: |b| <= k < |h| ==> s[k] == h[k];
  }

  /** The base-URL rule: strip, fall back to `fallback` when empty, cut at
      the first `?` and then the first `#`, drop trailing `/`, and fall
      back again when nothing is left. */
  function NormalizeBaseUrl(raw: string, fallback: string): (r: string)
    requires CleanUrl(fallback)
    ensures CleanUrl(r)
    ensures Strip(raw) == [] ==> r == fallback
    ensures r == (if CutUrl(Strip(raw)) != [] then CutUrl(Strip(raw)) else fallback)
    ensures r == fallback || StartsWith(Strip(raw), r)
    ensures r != fallback && |r| < |Strip(raw)| ==>
              Strip(raw)[|r|] == '/' || Strip(raw)[|r|] == '?' || Strip(raw)[|r|] == '#'
  {
    var stripped := Strip(raw);
    if stripped == [] then
      CutAtNone(fallback, '?');
      CutAtNone(fallback, '#');
      fallback
    else if CutUrl(stripped) == [] then fallback
    else CutUrl(stripped)
  }

  /** A clean URL is its own cut. */
  lemma CutUrlOfClean(u: string)
    requires CleanUrl(u)
    ensures CutUrl(u) == u
  {
    CutAtNone(u, '?');
    CutAtNone(u, '#');
  }

  /** Cutting a clean URL followed by a query leaves the URL. */
  lemma CutUrlDropsQuery(u: string, tail: string)
    requires CleanUrl(u) && tail != [] && tail[0] == '?'
    ensures CutUrl(u + tail) == u
  {
    var s := u + tail;
    assert s[..|u|] == u;
    CutAtFirst(s, '?', |u|);
    CutUrlOfClean(u);
  }

  /** Cutting a clean URL followed by a fragment leaves the URL. */
  lemma CutUrlDropsFragment(u: string, tail: string)
    requires CleanUrl(u) && tail != [] && tail[0] == '#'
    ensures CutUrl(u + tail) == u
  {
    var s := u + tail;
    assert s[..|u| + 1] == u + ['#'];
    CutAtPastPrefix(s, '?', |u| + 1);
    var q := CutAt(s, '?');
    assert q[..|u|] == u;
    CutAtFirst(q, '#', |u|);
    assert CutAt(q, '#') == u;
  }

  /** A clean URL followed by a query or fragment normalises to the clean
      URL: whatever follows the first `?` or `#` is dropped. */
  lemma NormalizeDropsQueryAndFragment(u: string, tail: string, fallback: string)
    requires CleanUrl(u) && CleanUrl(fallback) && !IsSpace(u[0]) && !IsSpace(u[|u| - 1])
    requires tail == [] || ((tail[0] == '?' || tail[0] == '#') && !IsSpace(tail[|tail| - 1]))
    ensures NormalizeBaseUrl(u + tail, fallback) == u
  {
    var s := u + tail;
    StripUnpadded(s);
    if tail == [] {
      assert s == u;
      CutUrlOfClean(u);
    } else if tail[0] == '?' {
      CutUrlDropsQuery(u, tail);
    } else {
      CutUrlDropsFragment(u, tail);
    }
  }

  /** The two default header names are lowercase and use dashes. */
  lemma DefaultHeadersLower()
    ensures '_' !in "x-cg-pro-api-key" && forall i :: 0 <= i < 16 ==> !IsUpper("x-cg-pro-api-key"[i])
    ensures '_' !in "x-cg-demo-api-key" && forall i :: 0 <= i < 17 ==> !IsUpper("x-cg-demo-api-key"[i])
  {
  }

  /** The API-key header rule: an explicit header is lowercased with `_`
      turned into `-`; otherwise the pro header for a pro-API base URL and
      the demo header for any other. */
  function ApiKeyHeader(rawHeader: string, baseUrl: string): (r: string)
    ensures r != []
    ensures '_' !in r && forall i :: 0 <= i < |r| ==> !IsUpper(r[i])
    ensures Strip(rawHeader) != [] ==>
              |r| == |Strip(rawHeader)|
              && forall i :: 0 <= i < |r| ==>
                   r[i] == (if Strip(rawHeader)[i] == '_' then '-' else LowerChar(Strip(rawHeader)[i]))
    ensures Strip(rawHeader) == [] && Contains(baseUrl, "pro-api.coingecko.com") ==> r == "x-cg-pro-api-key"
    ensures Strip(rawHeader) == [] && !Contains(baseUrl, "pro-api.coingecko.com") ==> r == "x-cg-demo-api-key"
  {
    var h := ReplaceChar(Lower(Strip(rawHeader)), '_', '-');
    DefaultHeadersLower();
    if h != [] then h
    else if Contains(baseUrl, "pro-api.coingecko.com") then "x-cg-pro-api-key"
    else "x-cg-demo-api-key"
  }

  /** The quote-currency rule: stripped, defaulting to `usd`, lowercased. */
  function VsCurrency(raw: string): (r: string)
    ensures r != [] && forall i :: 0 <= i < |r| ==> !IsUpper(r[i])
    ensures Strip(raw) == [] ==> r == "usd"
    ensures Strip(raw) != [] ==> r == Lower(Strip(raw))
  {
    Lower(if Strip(raw) == [] then "usd" else Strip(raw))
  }

  /** The integer-setting rule: `int(raw)` when `raw` is all digits, else
      the fallback. */
  function IntSetting(raw: string, fallback: nat): (r: nat)
    ensures IsDigits(raw) ==> r == ParseDigits(raw)
    ensures !IsDigits(raw) ==> r == fallback
  {
    if IsDigits(raw) then ParseDigits(raw) else fallback
  }

  /** A number written out in decimal is read back as itself. */
  lemma IntSettingReadsBack(n: nat, fallback: nat)
    ensures IntSetting(NatToString(n), fallback) == n
  {
    ParseNatToString(n);
  }

  /** The settings `Config()` ends up with (the floating-point delays are
      not part of this record). */
  datatype Settings = Settings(
    secretKey: string,
    databaseUrl: string,
    coingeckoBaseUrl: string,
    coingeckoApiKey: string,
    coingeckoApiKeyHeader: string,
    coingeckoVsCurrency: string,
    maxHistoryDays: nat,
    coingeckoRetryCount: nat,
    coincapBaseUrl: string,
    coincapApiKey: string,
    coincapRetryCount: nat,
    prophetFutureDays: nat,
    rnnFutureDays: nat,
    logLevel: string,
    csrfTimeLimit: int,
    sessionCookieHttpOnly: bool,
    sessionCookieSameSite: string)

  /** `Config.__init__`. `MAX_HISTORY_DAYS` is read without stripping; the
      other integer settings are stripped first. */
  function LoadConfig(env: Env): (c: Settings)
    ensures CleanUrl(c.coingeckoBaseUrl) && CleanUrl(c.coincapBaseUrl)
    ensures c.coingeckoApiKeyHeader == ApiKeyHeader(Get(env, "COINGECKO_API_KEY_HEADER", ""), c.coingeckoBaseUrl)
    ensures c.coingeckoVsCurrency != [] && c.coingeckoApiKeyHeader != []
    ensures (DefaultUrlsClean();
             c.coingeckoBaseUrl == NormalizeBaseUrl(Get(env, "COINGECKO_BASE_URL", ""), CoingeckoDefaultUrl)
             && c.coincapBaseUrl == NormalizeBaseUrl(Get(env, "COINCAP_BASE_URL", ""), CoincapDefaultUrl))
    ensures c.coingeckoVsCurrency == VsCurrency(Get(env, "COINGECKO_VS_CURRENCY", ""))
    ensures c.coingeckoApiKey == Strip(Get(env, "COINGECKO_API_KEY", ""))
    ensures c.coincapApiKey == Strip(Get(env, "COINCAP_API_KEY", ""))
    ensures c.maxHistoryDays == IntSetting(Get(env, "MAX_HISTORY_DAYS", ""), 3650)
    ensures c.coingeckoRetryCount == IntSetting(Strip(Get(env, "COINGECKO_RETRY_COUNT", "2")), 2)
    ensures c.coincapRetryCount == IntSetting(Strip(Get(env, "COINCAP_RETRY_COUNT", "2")), 2)
    ensures c.prophetFutureDays == IntSetting(Strip(Get(env, "PROPHET_FUTURE_DAYS", "30")), 30)
    ensures c.rnnFutureDays == IntSetting(Strip(Get(env, "RNN_FUTURE_DAYS", "30")), 30)
    ensures c.secretKey == Get(env, "FLASK_SECRET_KEY", "dev-secret") && c.databaseUrl == Get(env, "DATABASE_URL", "")
    ensures c.logLevel == Get(env, "LOG_LEVEL", "INFO")
    ensures c.csrfTimeLimit == 3600 && c.sessionCookieHttpOnly && c.sessionCookieSameSite == "Lax"
  {
    DefaultUrlsClean();
    var geckoUrl := NormalizeBaseUrl(Get(env, "COINGECKO_BASE_URL", ""), CoingeckoDefaultUrl);
    Settings(
      Get(env, "FLASK_SECRET_KEY", "dev-secret"),
      Get(env, "DATABASE_URL", ""),
      geckoUrl,
      Strip(Get(env, "COINGECKO_API_KEY", "")),
      ApiKeyHeader(Get(env, "COINGECKO_API_KEY_HEADER", ""), geckoUrl),
      VsCurrency(Get(env, "COINGECKO_VS_CURRENCY", "")),
      IntSetting(Get(env, "MAX_HISTORY_DAYS", ""), 3650),
      IntSetting(Strip(Get(env, "COINGECKO_RETRY_COUNT", "2")), 2),
      NormalizeBaseUrl(Get(env, "COINCAP_BASE_URL", ""), CoincapDefaultUrl),
      Strip(Get(env, "COINCAP_API_KEY", "")),
      IntSetting(Strip(Get(env, "COINCAP_RETRY_COUNT", "2")), 2),
      IntSetting(Strip(Get(env, "PROPHET_FUTURE_DAYS", "30")), 30),
      IntSetting(Strip(Get(env, "RNN_FUTURE_DAYS", "30")), 30),
      Get(env, "LOG_LEVEL", "INFO"),
      3600, true, "Lax")
  }

  /** Integer settings written in decimal in the environment are read back
      as those numbers. */
  lemma ConfiguredNumbersReadBack(env: Env, days: nat, retries: nat, horizon: nat)
    requires "MAX_HISTORY_DAYS" in env && env["MAX_HISTORY_DAYS"] == NatToString(days)
    requires "COINGECKO_RETRY_COUNT" in env && env["COINGECKO_RETRY_COUNT"] == NatToString(retries)
    requires "RNN_FUTURE_DAYS" in env && env["RNN_FUTURE_DAYS"] == NatToString(horizon)
    ensures LoadConfig(env).maxHistoryDays == days
    ensures LoadConfig(env).coingeckoRetryCount == retries
    ensures LoadConfig(env).rnnFutureDays == horizon
  {
    IntSettingReadsBack(days, 3650);
    StripUnpadded(NatToString(retries));
    IntSettingReadsBack(retries, 2);
    StripUnpadded(NatToString(horizon));
    IntSettingReadsBack(horizon, 30);
  }

  /** A CoinGecko base URL set in the environment as a clean URL followed
      by a query or fragment is configured without them. */
  lemma ConfiguredBaseUrlKept(env: Env, u: string, tail: string)
    requires "COINGECKO_BASE_URL" in env && env["COINGECKO_BASE_URL"] == u + tail
    requires CleanUrl(u) && !IsSpace(u[0]) && !IsSpace(u[|u| - 1])
    requires tail == [] || ((tail[0] == '?' || tail[0] == '#') && !IsSpace(tail[|tail| - 1]))
    ensures LoadConfig(env).coingeckoBaseUrl == u
  {
    DefaultUrlsClean();
    NormalizeDropsQueryAndFragment(u, tail, CoingeckoDefaultUrl);
  }

  /** With nothing set in the environment both base URLs take their
      defaults and the demo header is used. */
  lemma EmptyEnvironmentUrls()
    ensures LoadConfig(map[]).coingeckoBaseUrl == CoingeckoDefaultUrl
    ensures LoadConfig(map[]).coincapBaseUrl == CoincapDefaultUrl
    ensures LoadConfig(map[]).coingeckoApiKeyHeader == "x-cg-demo-api-key"
  {
    assert Strip("") == [];
    NotContainsPro(CoingeckoDefaultUrl);
  }

  /** With nothing set in the environment the currency is `usd`. */
  lemma EmptyEnvironmentCurrency()
    ensures LoadConfig(map[]).coingeckoVsCurrency == "usd"
  {
    assert Strip("") == [];
    assert Lower("usd") == "usd";
  }

  /** A default written as digits is read back by the integer rule. */
  lemma DigitDefaultsReadBack()
    ensures IntSetting(Strip("2"), 2) == 2
    ensures IntSetting(Strip("30"), 30) == 30
  {
    assert LStrip("2") == "2";
    assert RStrip("2") == "2";
    assert LStrip("30") == "30";
    assert RStrip("30") == "30";
  }

  /** With nothing set in the environment the integer settings take their
      defaults. */
  lemma EmptyEnvironmentNumbers()
    ensures LoadConfig(map[]).maxHistoryDays == 3650
    ensures LoadConfig(map[]).coingeckoRetryCount == 2 && LoadConfig(map[]).coincapRetryCount == 2
    ensures LoadConfig(map[]).prophetFutureDays == 30 && LoadConfig(map[]).rnnFutureDays == 30
  {
    var env: Env := map[];
    assert Get(env, "MAX_HISTORY_DAYS", "") == "" && !IsDigits("");
    assert Get(env, "COINGECKO_RETRY_COUNT", "2") == "2" && Get(env, "COINCAP_RETRY_COUNT", "2") == "2";
    assert Get(env, "PROPHET_FUTURE_DAYS", "30") == "30" && Get(env, "RNN_FUTURE_DAYS", "30") == "30";
    DigitDefaultsReadBack();
  }

  /** A string without a `-` does not contain `pro-api.coingecko.com`. */
  lemma {:induction false} NotContainsPro(s: string)
    requires '-' !in s
    ensures !Contains(s, "pro-api.coingecko.com")
  {
    if |s| >= 21 {
      assert s[..21][3] == s[3] != '-';
    }
    if s != [] {
      assert '-' !in s[1..];
      NotContainsPro(s[1..]);
    }
  }
}
