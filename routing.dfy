/** The route handler: path checks, `limit` clamping and key
    normalisation, and the hit/miss decision that fills in the context. */
module Routing {
  import opened Common
  import opened JsNumber
  import JsString
  import opened SearchParams
  import Cache
  import Koa

  /** The two settings the route handler is built from. */
  datatype Config = Config(supported: string, limit: SafeNat)

  /** The errors `ctx.assert` throws. */
  datatype HttpError =
    | NotFound                                    // 404
    | NotImplemented(url: string, supported: string)  // 501 'Nope', with { url, supported }

  function Status(e: HttpError): nat
  {
    match e
    case NotFound => 404
    case NotImplemented(_, _) => 501
  }

  /** `s.slice(1)`. */
  function Slice1(s: string): string
  {
    if s == [] then [] else s[1..]
  }

  /** `!queryLimit || (queryLimit > limit)`: the first `limit` value is
      missing, empty, or coerces to a number above the ceiling. */
  predicate NeedsClamp(queryLimit: Option<string>, limit: nat)
  {
    !Truthy(queryLimit) || GreaterThan(ToNumber(queryLimit.value), limit)
  }

  /** The query after the conditional `search.set('limit', limit)`. */
  function Clamp(q: seq<Param>, limit: SafeNat): seq<Param>
  {
    if NeedsClamp(FirstValue(q, "limit"), limit) then Assign(q, "limit", NatToString(limit)) else q
  }

  /** The query after clamping and `search.sort()`: what the upstream is
      asked for. */
  function Normalize(q: seq<Param>, limit: SafeNat): seq<Param>
  {
    SortByName(Clamp(q, limit))
  }

  /** The cache key of the proxied path. */
  function ProxyKey(q: seq<Param>, limit: SafeNat): string
  {
    Serialize(Normalize(q, limit))
  }

  /** Where a request that gets past the path checks is headed: its cache
      key, `ctx.type`, and the query list afterwards. */
  datatype Target = Target(key: string, contentType: string, query: seq<Param>)

  /** The path checks and key computation of the route handler, in its
      order: the favicon probe first, then the root, then the supported
      path. */
  function Route(cfg: Config, pathname: string, url: string, q: seq<Param>): Result<Target, HttpError>
  {
    if pathname == "/favicon.ico" then Failure(NotFound)
    else if pathname == "/" then Success(Target("/", "text/html", q))
    else if Slice1(pathname) != cfg.supported then Failure(NotImplemented(url, cfg.supported))
    else
      var n := Normalize(q, cfg.limit);
      Success(Target(Serialize(n), "application/json", n))
  }

  /** What the route handler writes into the context once the key is known:
      `ctx.compress`, the `content-encoding` it sets (if any), `ctx.key`
      and `ctx.body`. */
  datatype Decision = Decision(compress: bool, contentEncoding: Option<string>, key: Option<string>, body: Koa.Body)

  /** The hit/miss dispatch on the result of `peek(key)`. */
  function Decide(key: string, peeked: Option<Cache.Entry>, upstreamQuery: string, helpPage: string): Decision
  {
    match peeked
    case Some(e) =>
      Decision(false, if Truthy(e.encoding) then e.encoding else None, None, Koa.Bytes(e.full))
    case None =>
      Decision(true, None, Some(key), if key == "/" then Koa.Text(helpPage) else Koa.Upstream(upstreamQuery))
  }

  // ------------------------------------------------------------ properties

  /** The favicon probe is answered with 404 before any other check, even
      when the supported path is `favicon.ico` itself. */
  lemma FaviconFirst(cfg: Config, url: string, q: seq<Param>)
    ensures Route(cfg, "/favicon.ico", url, q) == Failure(NotFound)
    ensures Status(Route(cfg, "/favicon.ico", url, q).error) == 404
  {
  }

  /** Any other path than the root and the favicon fails with 501, carrying
      the request URL and the supported path, exactly when it is not the
      supported path behind its first character. */
  lemma UnsupportedPath(cfg: Config, pathname: string, url: string, q: seq<Param>)
    requires pathname != "/favicon.ico" && pathname != "/"
    ensures Route(cfg, pathname, url, q).Failure? <==> Slice1(pathname) != cfg.supported
    ensures Route(cfg, pathname, url, q).Failure? ==>
      Route(cfg, pathname, url, q).error == NotImplemented(url, cfg.supported) &&
      Status(Route(cfg, pathname, url, q).error) == 501
  {
  }

  /** The root is the help page under the sentinel key `/`, as HTML, and
      its query is not touched. */
  lemma RootTarget(cfg: Config, url: string, q: seq<Param>)
    ensures Route(cfg, "/", url, q) == Success(Target("/", "text/html", q))
  {
  }

  /** When the first `limit` is missing, empty or above the ceiling, the
      normalised query holds exactly one `limit`, whose value is the
      ceiling; otherwise the query is only sorted. The pairs of every other
      name are kept, in their order. */
  lemma ClampLimit(q: seq<Param>, limit: SafeNat)
    ensures NeedsClamp(FirstValue(q, "limit"), limit) ==>
      Named(Normalize(q, limit), "limit") == [("limit", NatToString(limit))]
    ensures !NeedsClamp(FirstValue(q, "limit"), limit) ==> Normalize(q, limit) == SortByName(q)
    ensures forall n :: n != "limit" ==> Named(Normalize(q, limit), n) == Named(q, n)
  {
    forall n ensures Named(Normalize(q, limit), n) == Named(Clamp(q, limit), n) {
      SortStable(Clamp(q, limit), n);
    }
    forall n ensures Named(Clamp(q, limit), n) == if n == "limit" && NeedsClamp(FirstValue(q, "limit"), limit)
      then [("limit", NatToString(limit))] else Named(q, n)
    {
      AssignNamed(q, "limit", NatToString(limit), n);
    }
  }

  /** The first `limit` of the normalised query, the one `get` reads, is
      present, non-empty and not above the ceiling. */
  lemma NormalizedLimitBounded(q: seq<Param>, limit: SafeNat)
    ensures FirstValue(Normalize(q, limit), "limit").Some?
    ensures !NeedsClamp(FirstValue(Normalize(q, limit), "limit"), limit)
  {
    ClampLimit(q, limit);
    var v := FirstValue(q, "limit");
    if NeedsClamp(v, limit) {
      ToNumberOfNatToString(limit);
    } else {
      SortStable(q, "limit");
    }
  }

  /** The normalised query is sorted by name, and is a rearrangement of the
      clamped one. */
  lemma NormalizedSorted(q: seq<Param>, limit: SafeNat)
    ensures SortedByName(Normalize(q, limit))
    ensures multiset(Normalize(q, limit)) == multiset(Clamp(q, limit))
  {
    SortSorted(Clamp(q, limit));
    SortPermutation(Clamp(q, limit));
  }

  /** Normalising a normalised query changes nothing: the query the upstream
      is asked for, sent again, maps to the same key. */
  lemma NormalizeIdempotent(q: seq<Param>, limit: SafeNat)
    ensures Normalize(Normalize(q, limit), limit) == Normalize(q, limit)
  {
    var n := Normalize(q, limit);
    NormalizedLimitBounded(q, limit);
    NormalizedSorted(q, limit);
    SortOfSorted(n);
  }

  /** Clamping respects the pairs of each name: two queries that agree name
      by name are clamped alike. */
  lemma ClampByName(a: seq<Param>, b: seq<Param>, limit: SafeNat)
    requires SameByName(a, b)
    ensures SameByName(Clamp(a, limit), Clamp(b, limit))
  {
    FirstValueByName(a, b, "limit");
    if NeedsClamp(FirstValue(a, "limit"), limit) {
      AssignByName(a, b, "limit", NatToString(limit));
    }
  }

  /** The key depends only on the pairs of each name and their relative
      order, not on how differently named pairs are interleaved. */
  lemma KeyDeterminism(a: seq<Param>, b: seq<Param>, limit: SafeNat)
    requires SameByName(a, b)
    ensures ProxyKey(a, limit) == ProxyKey(b, limit)
  {
    ClampByName(a, b, limit);
    SortByNameDetermined(Clamp(a, limit), Clamp(b, limit));
  }

  /** Any rearrangement of a query whose names are distinct has the same
      key. */
  lemma KeyIgnoresOrder(a: seq<Param>, b: seq<Param>, limit: SafeNat)
    requires multiset(a) == multiset(b)
    requires DistinctNames(a)
    ensures ProxyKey(a, limit) == ProxyKey(b, limit)
  {
    PermutationOfDistinct(a, b);
    KeyDeterminism(a, b, limit);
  }

  /** A proxied key is never empty, so a proxied miss arms the capture, and
      never the root's sentinel `/`, so the two paths never share an
      entry. */
  lemma ProxyKeyNotSentinel(q: seq<Param>, limit: SafeNat)
    ensures ProxyKey(q, limit) != "" && ProxyKey(q, limit) != "/"
  {
    NormalizedLimitBounded(q, limit);
    var n := Normalize(q, limit);
    SerializeHasEquals(n);
  }

  /** The proxied path: JSON, keyed by the serialisation of the normalised
      query, which is sorted, holds an acceptable first `limit`, and keeps
      every other name's pairs in order. */
  lemma ProxiedTarget(cfg: Config, pathname: string, url: string, q: seq<Param>)
    requires pathname != "/favicon.ico" && pathname != "/"
    requires Slice1(pathname) == cfg.supported
    ensures Route(cfg, pathname, url, q).Success?
    ensures var t := Route(cfg, pathname, url, q).value;
      && t.contentType == "application/json"
      && t.key == Serialize(t.query) && t.key != "" && t.key != "/"
      && SortedByName(t.query)
      && !NeedsClamp(FirstValue(t.query, "limit"), cfg.limit)
      && forall n :: n != "limit" ==> Named(t.query, n) == Named(q, n)
  {
    ClampLimit(q, cfg.limit);
    NormalizedLimitBounded(q, cfg.limit);
    NormalizedSorted(q, cfg.limit);
    ProxyKeyNotSentinel(q, cfg.limit);
  }

  /** Every successful route has a truthy key, so `ctx.key` is set on
      every miss; whether the capture is armed then depends on the body
      being a stream (a proxied miss is, the help page's string is not). */
  lemma RouteKeyTruthy(cfg: Config, pathname: string, url: string, q: seq<Param>)
    requires Route(cfg, pathname, url, q).Success?
    ensures Route(cfg, pathname, url, q).value.key != ""
  {
    if pathname != "/" {
      ProxyKeyNotSentinel(q, cfg.limit);
    }
  }

  /** Only the first `limit` is looked at: with `limit=5&limit=20000` and a
      ceiling of 10000 nothing is clamped and both pairs are kept. */
  lemma OnlyFirstLimitChecked()
    ensures Normalize([("limit", "5"), ("limit", "20000")], 10000) == [("limit", "5"), ("limit", "20000")]
  {
    var q := [("limit", "5"), ("limit", "20000")];
    assert FirstValue(q, "limit") == Some("5");
    assert ToNumber("5") == Finite(5 as real) by {
      assert NatToString(5) == "5";
      ToNumberOfNatToString(5);
    }
    NameLeReflexive("limit");
    assert SortedByName(q);
    SortOfSorted(q);
  }

  /** The route handler object: its settings and the upstream URL that it
      shares across requests, of which only the query changes. */
  class Router {
    const cfg: Config
    /** `baseUrl`'s query, without the `?`; empty stands for none. */
    var upstreamQuery: string

    constructor (cfg: Config)
      ensures this.cfg == cfg && upstreamQuery == ""
    {
      this.cfg := cfg;
      upstreamQuery := "";
    }

    /** `baseUrl.search`. */
    function Search(): string
      reads this
    {
      if upstreamQuery == "" then "" else "?" + upstreamQuery
    }

    /** Clamps `limit`, sorts `search` in place, stores its serialisation
        as the upstream query and returns it as the key (the proxied branch
        of the route handler). */
    method Canonicalize(search: SearchParams.ParamList) returns (key: string)
      modifies this, search
      ensures search.list == Normalize(old(search.list), cfg.limit)
      ensures key == upstreamQuery == ProxyKey(old(search.list), cfg.limit)
    {
      ghost var q := search.list;
      var queryLimit := search.Get("limit");
      if NeedsClamp(queryLimit, cfg.limit) {
        search.Set("limit", NatToString(cfg.limit));
      }
      assert search.list == Clamp(q, cfg.limit);
      search.Sort();
      upstreamQuery := search.ToString();
      ProxyKeyNotSentinel(q, cfg.limit);
      key := Slice1(Search());
    }

    /** The hit/miss dispatch: peeks at the cache and fills in
        `ctx.compress`, `content-encoding`, `ctx.key` and `ctx.body`. */
    method Dispatch(ctx: Koa.Context, key: string, helpPage: string)
      modifies ctx
      ensures
        var d := Decide(key, Get(ctx.lru.entries, key), upstreamQuery, helpPage);
        && ctx.compress == Some(d.compress)
        && ctx.key == d.key
        && ctx.body == d.body
        && ctx.responseHeaders == (if d.contentEncoding.Some?
                                   then old(ctx.responseHeaders)["content-encoding" := d.contentEncoding.value]
                                   else old(ctx.responseHeaders))
      ensures ctx.requestHeaders == old(ctx.requestHeaders) && ctx.contentType == old(ctx.contentType)
    {
      var peeked := ctx.lru.Peek(key);
      ctx.compress := Some(peeked.None?);
      if peeked.Some? && Truthy(peeked.value.encoding) {
        ctx.responseHeaders := ctx.responseHeaders["content-encoding" := peeked.value.encoding.value];
      }
      ctx.key := if peeked.None? then Some(key) else None;
      ctx.body := if peeked.Some? then Koa.Bytes(peeked.value.full)
                  else if key == "/" then Koa.Text(helpPage)
                  else Koa.Upstream(upstreamQuery);
    }

    /** Handles one request. `helpPage` is what the help-page template
        renders for this request. Returns the error thrown, if any, and, as
        a ghost, the route the request takes; on an error nothing is
        changed. */
    method Handle(ctx: Koa.Context, helpPage: string) returns (thrown: Option<HttpError>, ghost route: Result<Target, HttpError>)
      modifies this, ctx, ctx.url.searchParams
      ensures route == Route(cfg, ctx.url.pathname, ctx.requestUrl, old(ctx.url.searchParams.list))
      ensures route.Failure? ==> thrown == Some(route.error)
      ensures route.Failure? ==> unchanged(this) && unchanged(ctx) && unchanged(ctx.url.searchParams)
      ensures route.Success? ==> thrown == None
      ensures route.Success? ==> ctx.url.searchParams.list == route.value.query
      ensures route.Success? ==> ctx.contentType == route.value.contentType
      ensures route.Success? && ctx.url.pathname == "/" ==> unchanged(this)
      ensures route.Success? && ctx.url.pathname != "/" ==> upstreamQuery == route.value.key
      ensures route.Success? ==>
        var d := Decide(route.value.key, Get(ctx.lru.entries, route.value.key), upstreamQuery, helpPage);
        && ctx.compress == Some(d.compress)
        && ctx.key == d.key
        && ctx.body == d.body
        && ctx.responseHeaders == (if d.contentEncoding.Some?
                                   then old(ctx.responseHeaders)["content-encoding" := d.contentEncoding.value]
                                   else old(ctx.responseHeaders))
      ensures ctx.requestHeaders == old(ctx.requestHeaders)
    {
      var url := ctx.url;
      route := Route(cfg, url.pathname, ctx.requestUrl, url.searchParams.list);
      if url.pathname == "/favicon.ico" {
        return Some(NotFound), route;
      }
      var key: string;
      if url.pathname == "/" {
        ctx.contentType := "text/html";
        key := "/";
      } else {
        var proxiedUrl := Slice1(url.pathname);
        if proxiedUrl != cfg.supported {
          return Some(NotImplemented(ctx.requestUrl, cfg.supported)), route;
        }
        key := Canonicalize(url.searchParams);
        ctx.contentType := "application/json";
      }
      Dispatch(ctx, key, helpPage);
      thrown := None;
    }
  }
}

/** `limit` values written in the other notations that `StringToNumber`
    accepts, against a ceiling of 10000. */
module ClampExamples {
  import opened Common
  import opened JsString
  import opened JsNumber
  import opened Routing

  /** A missing or empty `limit` is falsy and is clamped, whatever the
      ceiling. */
  lemma EmptyLimitClamped(limit: nat)
    ensures NeedsClamp(Some(""), limit) && NeedsClamp(None, limit)
  {
  }

  /** A value that coerces to NaN is not clamped. */
  lemma NaNNotClamped(s: string, limit: nat)
    requires ToNumber(s) == NaN
    ensures !NeedsClamp(Some(s), limit)
  {
  }

  /** A non-empty value that coerces to a number not above the ceiling is
      kept. */
  lemma NotAboveKept(s: string, v: real, limit: nat)
    requires s != "" && ToNumber(s) == Finite(v) && v <= limit as real
    ensures !NeedsClamp(Some(s), limit)
  {
  }

  /** A value that coerces to a number above the ceiling is clamped. */
  lemma AboveClamped(s: string, v: real, limit: nat)
    requires ToNumber(s) == Finite(v) && v > limit as real
    ensures NeedsClamp(Some(s), limit)
  {
  }

  /** `limit=1e5` is an exponent literal worth 100000, so it is clamped. */
  lemma ExponentLimitClamped()
    ensures ToNumber("1e5") == Finite(100000.0)
    ensures NeedsClamp(Some("1e5"), 10000)
  {
    ExponentTrimmed();
    ExponentLiteral();
    ExponentValue();
    AboveClamped("1e5", 100000.0, 10000);
  }

  lemma ExponentTrimmed()
    ensures ToNumber("1e5") == NumericLiteral("1e5")
  {
    var t := "1e5";
    assert t[0] == '1' && t[|t| - 1] == '5';
    TrimOfTrimmed(t);
  }

  lemma ExponentLiteral()
    ensures NumericLiteral("1e5") == UnsignedDecimal("1e5")
  {
    var t := "1e5";
    assert t[0] == '1';
  }

  lemma ExponentValue()
    ensures UnsignedDecimal("1e5") == Finite(100000.0)
  {
    var u := "1e5";
    assert u != "Infinity" by {
      assert |u| == 3;
    }
    ExponentAt();
    assert u[..1] == "1" && u[2..] == "5";
    assert UnsignedDecimal(u) == ScaledMantissa("1", "5");
    OneMantissa();
    FiveExponent();
    TenToTheFifth();
  }

  lemma TenToTheFifth()
    ensures Scale(5) == 100000.0
  {
  }

  lemma ExponentAt()
    ensures IndexOfAny("1e5", {'e', 'E'}) == 1
  {
    var u := "1e5";
    assert u[0] == '1' && u[1..] == "e5";
    assert IndexOfAny("e5", {'e', 'E'}) == 0;
  }

  lemma OneMantissa()
    ensures Mantissa("1") == Some(1.0)
  {
    MantissaOfDigits("1");
    assert "1"[..0] == [];
  }

  lemma FiveExponent()
    ensures Exponent("5") == Some(5)
  {
    assert "5"[..0] == [];
    assert RadixValue("5", 10) == 5;
  }

  /** `limit=0x2711` is a hexadecimal literal worth 10001, so it is
      clamped. */
  lemma HexLimitClamped()
    ensures ToNumber("0x2711") == Finite(10001.0)
    ensures NeedsClamp(Some("0x2711"), 10000)
  {
    HexTrimmed();
    HexLiteral();
    HexValue();
    AboveClamped("0x2711", 10001.0, 10000);
  }

  lemma HexTrimmed()
    ensures ToNumber("0x2711") == NumericLiteral("0x2711")
  {
    var t := "0x2711";
    assert t[0] == '0' && t[|t| - 1] == '1';
    TrimOfTrimmed(t);
  }

  lemma HexLiteral()
    ensures NumericLiteral("0x2711") == NonDecimal("2711", 16)
  {
    var t := "0x2711";
    assert t[0] == '0' && t[1] == 'x' && t[2..] == "2711";
  }

  lemma HexValue()
    ensures NonDecimal("2711", 16) == Finite(10001.0)
  {
    var d := "2711";
    assert AllDigits(d, 16);
    assert d[..3] == "271" && "271"[..2] == "27" && "27"[..1] == "2" && "2"[..0] == [];
    assert RadixValue(d, 16) == 10001;
  }

  /** A non-numeric `limit` coerces to NaN, is not above the ceiling, and
      is therefore kept. */
  lemma NonNumericLimitKept(limit: SafeNat)
    ensures ToNumber("ten") == NaN
    ensures !NeedsClamp(Some("ten"), limit)
  {
    TenTrimmed();
    TenLiteral();
    NaNNotClamped("ten", limit);
  }

  lemma TenTrimmed()
    ensures ToNumber("ten") == NumericLiteral("ten")
  {
    var t := "ten";
    assert t[0] == 't' && t[|t| - 1] == 'n';
    TrimOfTrimmed(t);
  }

  lemma TenLiteral()
    ensures NumericLiteral("ten") == NaN
  {
    var t := "ten";
    assert t[0] == 't';
    assert NumericLiteral(t) == UnsignedDecimal(t);
    TenSplitAtE();
    NoMantissaT();
  }

  lemma TenSplitAtE()
    ensures UnsignedDecimal("ten") == ScaledMantissa("t", "n")
  {
    var u := "ten";
    assert u != "Infinity" by {
      assert |u| == 3;
    }
    assert IndexOfAny(u, {'e', 'E'}) == 1 by {
      assert u[0] == 't' && u[1..] == "en";
      assert IndexOfAny("en", {'e', 'E'}) == 0;
    }
    assert u[..1] == "t" && u[2..] == "n";
  }

  lemma NoMantissaT()
    ensures Mantissa("t") == None
  {
    assert IndexOfAny("t", {'.'}) == 1 by {
      assert "t"[1..] == [];
    }
    assert "t"[..1] == "t";
    assert DigitValue('t') == -1;
    assert !AllDigits("t", 10);
  }

  /** `limit=Infinity` is above every ceiling, so it is clamped. */
  lemma InfinityLimitClamped()
    ensures ToNumber("Infinity") == PosInfinity
    ensures NeedsClamp(Some("Infinity"), 10000)
  {
    var t := "Infinity";
    assert t[0] == 'I' && t[|t| - 1] == 'y';
    TrimOfTrimmed(t);
    assert NumericLiteral(t) == UnsignedDecimal(t);
  }

  /** `limit=-5` is negative, never above the ceiling, and so is forwarded
      as sent. */
  lemma NegativeLimitKept()
    ensures ToNumber("-5") == Finite(-5.0)
    ensures !NeedsClamp(Some("-5"), 10000)
  {
    NegativeTrimmed();
    NegativeLiteral();
    FiveValue();
    NotAboveKept("-5", -5.0, 10000);
  }

  lemma NegativeTrimmed()
    ensures ToNumber("-5") == NumericLiteral("-5")
  {
    var t := "-5";
    assert t[0] == '-' && t[|t| - 1] == '5';
    TrimOfTrimmed(t);
  }

  lemma NegativeLiteral()
    ensures NumericLiteral("-5") == Negate(UnsignedDecimal("5"))
  {
    var t := "-5";
    assert t[0] == '-' && t[1..] == "5";
  }

  lemma FiveValue()
    ensures UnsignedDecimal("5") == Finite(5.0)
  {
    UnsignedDecimalOfDigits("5");
    assert RadixValue("5", 10) == 5 by {
      assert "5"[..0] == [];
    }
  }
}
