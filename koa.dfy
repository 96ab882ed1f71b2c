/** The parts of a Koa request context that the core reads and writes. */
module Koa {
  import opened Common
  import SearchParams
  import Cache

  /** What `ctx.body` can hold: nothing, a `Buffer`, a string (the help
      page) or a readable stream from the upstream fetched with the given
      query string. */
  datatype Body = NoBody | Bytes(data: seq<byte>) | Text(text: string) | Upstream(query: string)

  /** `ctx.body.on` exists: the body is a stream that emits events. */
  predicate IsStream(b: Body)
  {
    b.Upstream?
  }

  /** `ctx.URL`: the parsed request URL. Its `searchParams` object is the
      one the router changes in place. */
  class Url {
    const pathname: string
    const searchParams: SearchParams.ParamList

    constructor (pathname: string, searchParams: SearchParams.ParamList)
      ensures this.pathname == pathname && this.searchParams == searchParams
    {
      this.pathname := pathname;
      this.searchParams := searchParams;
    }
  }

  /** One request's context. `lru` is the cache shared by all contexts. */
  class Context {
    /** `ctx.url`: the request target as received (path and query), which
        the 501 error carries. Named apart from `url`, which stands for the
        parsed `ctx.URL`. */
    const requestUrl: string
    const url: Url
    const lru: Cache.Lru
    /** `ctx.headers`, with lower-case names. */
    var requestHeaders: map<string, string>
    /** `ctx.response.headers`. */
    var responseHeaders: map<string, string>
    /** `ctx.type`; empty until set. */
    var contentType: string
    /** `ctx.compress`; `None` until set. */
    var compress: Option<bool>
    /** `ctx.key`; `None` for `undefined` and `false`. */
    var key: Option<string>
    var body: Body

    constructor (requestUrl: string, url: Url, lru: Cache.Lru, requestHeaders: map<string, string>)
      ensures this.requestUrl == requestUrl && this.url == url && this.lru == lru
      ensures this.requestHeaders == requestHeaders && responseHeaders == map[]
      ensures contentType == "" && compress == None && key == None && body == NoBody
    {
      this.requestUrl := requestUrl;
      this.url := url;
      this.lru := lru;
      this.requestHeaders := requestHeaders;
      responseHeaders := map[];
      contentType := "";
      compress := None;
      key := None;
      body := NoBody;
    }
  }
}
