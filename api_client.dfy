/**
 * The shared HTTP client: a lazily created singleton whose request interceptor
 * copies the `accessToken` cookie into a `Bearer` Authorization header.
 * `document.cookie` is a parameter and `decodeURIComponent` is the parameter
 * `decode`, whose `None` stands for the exception it throws on bad input.
 */
module ApiClient {
  import opened Wrappers
  import opened JsString

  const COOKIE_SEPARATOR := "; "
  const TOKEN_PREFIX := "accessToken="
  const BEARER := "Bearer "
  const TIMEOUT_MS := 40000
  const CONTENT_TYPE := "application/json"

  /** A JavaScript value that is either `undefined` or a string. */
  datatype MaybeString = Undefined | Str(s: string)

  type Decode = string -> Option<string>

  /** The index of the first entry that begins with `prefix`, or `None` where JavaScript would give -1. */
  function FirstWithPrefix(entries: seq<string>, prefix: string): (r: Option<nat>)
    ensures r.Some? ==> r.value < |entries| && StartsWith(entries[r.value], prefix)
    ensures r.Some? ==> forall j :: 0 <= j < r.value ==> !StartsWith(entries[j], prefix)
    ensures r.None? <==> forall j :: 0 <= j < |entries| ==> !StartsWith(entries[j], prefix)
    decreases |entries|
  {
    if entries == [] then None
    else if StartsWith(entries[0], prefix) then Some(0)
    else match FirstWithPrefix(entries[1..], prefix)
      case None => None
      case Some(k) => Some(k + 1)
  }

  /** The raw token: split the cookie header into entries, take the first entry that begins with the
      token prefix, and keep the text between its first and second `=` (undefined when there is none). */
  function RawAccessToken(cookie: string): (r: MaybeString)
    ensures r.Undefined? <==> FirstWithPrefix(Split(cookie, COOKIE_SEPARATOR), TOKEN_PREFIX).None?
    ensures r.Str? ==> '=' !in r.s
  {
    var entries := Split(cookie, COOKIE_SEPARATOR);
    match FirstWithPrefix(entries, TOKEN_PREFIX)
    case None => Undefined
    case Some(k) =>
      var rest := entries[k][|TOKEN_PREFIX|..];
      assert entries[k] == "accessToken" + ['='] + rest by {
        assert entries[k][..|TOKEN_PREFIX|] == TOKEN_PREFIX;
      }
      assert '=' !in "accessToken";
      SplitAfterFreePrefix("accessToken", '=', rest);
      SplitFirstPiece(rest, '=');
      var parts := Split(entries[k], "=");
      if |parts| > 1 then Str(parts[1]) else Undefined
  }

  /**
   * The cookie header is cut into entries exactly at each `"; "`: the entries
   * joined back give the header, and none of them contains `"; "`.
   */
  lemma CookieEntries(cookie: string)
    ensures var entries := Split(cookie, COOKIE_SEPARATOR);
      && Join(entries, COOKIE_SEPARATOR) == cookie
      && forall i :: 0 <= i < |entries| ==> !Occurs(entries[i], COOKIE_SEPARATOR)
  {
    JoinSplit(cookie, COOKIE_SEPARATOR);
    SplitPiecesClean(cookie, COOKIE_SEPARATOR);
  }

  /**
   * What the interceptor assigns to `config.headers.Authorization`; `None` when
   * decoding throws and the assignment is skipped.
   */
  function AuthorizationHeader(cookie: string, decode: Decode): (r: Option<string>)
    ensures r.Some? ==> StartsWith(r.value, BEARER)
    ensures r.None? <==> (var t := RawAccessToken(cookie); t.Str? && t.s != "" && decode(t.s).None?)
  {
    match RawAccessToken(cookie)
    case Undefined => Some(BEARER + "undefined")
    case Str(token) =>
      if token == "" then Some(BEARER)
      else match decode(token)
        case None => None
        case Some(decoded) => Some(BEARER + RemoveAll(decoded, '"'))
  }

  /**
   * The token comes from the first `"; "`-separated entry that starts with
   * `accessToken=`: it is the text after that prefix up to the next `=` or the
   * end, so a value holding `=` is cut short there.
   */
  lemma {:induction false} TokenFromFirstEntry(cookie: string)
    ensures var entries := Split(cookie, COOKIE_SEPARATOR);
      match FirstWithPrefix(entries, TOKEN_PREFIX)
      case None => RawAccessToken(cookie) == Undefined
      case Some(k) =>
        var rest := entries[k][|TOKEN_PREFIX|..];
        && RawAccessToken(cookie).Str?
        && var v := RawAccessToken(cookie).s;
        && '=' !in v && v <= rest && (|v| == |rest| || rest[|v|] == '=')
  {
    var entries := Split(cookie, COOKIE_SEPARATOR);
    match FirstWithPrefix(entries, TOKEN_PREFIX)
    case None =>
    case Some(k) =>
      var e := entries[k];
      var rest := e[|TOKEN_PREFIX|..];
      assert e == "accessToken" + ['='] + rest by {
        assert e[..|TOKEN_PREFIX|] == TOKEN_PREFIX;
      }
      assert '=' !in "accessToken";
      SplitAfterFreePrefix("accessToken", '=', rest);
      SplitFirstPiece(rest, '=');
  }

  /** Without an `accessToken` cookie the header reads "Bearer undefined". */
  lemma MissingCookieHeader(cookie: string, decode: Decode)
    requires forall j :: 0 <= j < |Split(cookie, COOKIE_SEPARATOR)| ==> !StartsWith(Split(cookie, COOKIE_SEPARATOR)[j], TOKEN_PREFIX)
    ensures AuthorizationHeader(cookie, decode) == Some("Bearer undefined")
  {
    assert RawAccessToken(cookie) == Undefined;
    assert BEARER + "undefined" == "Bearer undefined";
  }

  /** A present, non-empty token that decodes gives "Bearer " and the decoded text with every `"` removed. */
  lemma DecodedTokenHeader(cookie: string, decode: Decode)
    requires RawAccessToken(cookie).Str? && RawAccessToken(cookie).s != ""
    requires decode(RawAccessToken(cookie).s).Some?
    ensures var d := decode(RawAccessToken(cookie).s).value;
      var h := AuthorizationHeader(cookie, decode).value;
      && h[..|BEARER|] == BEARER
      && '"' !in h[|BEARER|..]
      && h == BEARER + RemoveAll(d, '"')
      && ('"' !in d ==> h == BEARER + d)
  {
    var d := decode(RawAccessToken(cookie).s).value;
    var h := AuthorizationHeader(cookie, decode).value;
    assert h == BEARER + RemoveAll(d, '"');
    assert h[|BEARER|..] == RemoveAll(d, '"');
    if '"' !in d {
      RemoveAllAbsent(d, '"');
    }
  }

  /** An empty value (the first matching entry is `accessToken=` alone) gives the header "Bearer ". */
  lemma EmptyTokenHeader(cookie: string, decode: Decode)
    requires var entries := Split(cookie, COOKIE_SEPARATOR);
      var k := FirstWithPrefix(entries, TOKEN_PREFIX);
      k.Some? && entries[k.value] == TOKEN_PREFIX
    ensures AuthorizationHeader(cookie, decode) == Some(BEARER)
  {
    TokenFromFirstEntry(cookie);
  }

  /** The request configuration the interceptor receives and returns. */
  class RequestConfig {
    var headers: map<string, string>

    constructor (headers: map<string, string>)
      ensures this.headers == headers
    {
      this.headers := headers;
    }
  }

  /** The request interceptor: set the Authorization header unless decoding throws, then return the config. */
  method InterceptRequest(config: RequestConfig, cookie: string, decode: Decode) returns (out: RequestConfig)
    modifies config
    ensures out == config
    ensures AuthorizationHeader(cookie, decode).Some? ==>
      config.headers == old(config.headers)["Authorization" := AuthorizationHeader(cookie, decode).value]
    ensures AuthorizationHeader(cookie, decode).None? ==> config.headers == old(config.headers)
  {
    var header := AuthorizationHeader(cookie, decode);
    if header.Some? {
      config.headers := config.headers["Authorization" := header.value];
    }
    out := config;
  }

  /** What `axios.create` is given: base URL from the environment, 40 s timeout, JSON content type. */
  class Client {
    const baseURL: Option<string>
    const timeout: nat
    const headers: map<string, string>

    constructor (baseURL: Option<string>)
      ensures this.baseURL == baseURL && timeout == TIMEOUT_MS
      ensures headers == map["Content-Type" := CONTENT_TYPE]
    {
      this.baseURL := baseURL;
      timeout := TIMEOUT_MS;
      headers := map["Content-Type" := CONTENT_TYPE];
    }
  }

  /** The module-level `client` variable and `getApiClient`, which fills it on first use. */
  class ClientHolder {
    var client: Client?
    /** How many clients have been created so far. */
    ghost var created: nat

    ghost predicate Valid()
      reads this
    {
      created == if client == null then 0 else 1
    }

    constructor ()
      ensures Valid() && client == null
    {
      client := null;
      created := 0;
    }

    method GetApiClient(baseURL: Option<string>) returns (c: Client)
      requires Valid()
      modifies this
      ensures Valid() && client == c && created <= 1
      ensures old(client) != null ==> c == old(client) && created == old(created)
      ensures old(client) == null ==>
        fresh(c) && c.baseURL == baseURL && c.timeout == TIMEOUT_MS && c.headers == map["Content-Type" := CONTENT_TYPE]
    {
      if client == null {
        client := new Client(baseURL);
        created := created + 1;
      }
      c := client;
    }
  }

  /** Every call after the first hands back the instance the first call created. */
  method SameClientTwice(holder: ClientHolder, baseURL: Option<string>) returns (c1: Client, c2: Client)
    requires holder.Valid()
    modifies holder
    ensures c1 == c2 && holder.created <= 1
  {
    c1 := holder.GetApiClient(baseURL);
    c2 := holder.GetApiClient(baseURL);
  }
}
