/** How the pieces work together on consecutive requests: the route
    handler's miss arms the capture middleware, the capture commits the
    upstream bytes under the key, and the next request with the same
    parameters is a hit served from those bytes. */
module Pipeline {
  import opened Common
  import opened SearchParams
  import opened Routing
  import opened Capture
  import Cache
  import Koa

  /** A miss on the proxied path is compressed and arms the capture with
      the key and the upstream stream. */
  lemma MissArmsCapture(key: string, upstreamQuery: string, helpPage: string)
    requires key != "" && key != "/"
    ensures var d := Decide(key, None, upstreamQuery, helpPage);
      d.compress && d.key == Some(key) && d.body == Koa.Upstream(upstreamQuery) && Armed(d.key, d.body)
  {
  }

  /** A help page that reaches the capture still as the string the route
      handler set is not stored: the key `/` is armed but the body is not a
      stream. (A compression middleware that turns it into a stream on the
      way is not part of this model.) */
  lemma HelpPageNotCached(m: map<string, Cache.Entry>, helpPage: string, encoding: Option<string>, events: seq<Event>)
    ensures var d := Decide("/", None, "", helpPage);
      d.key == Some("/") && d.body == Koa.Text(helpPage) && !Armed(d.key, d.body)
      && Captured(m, d.key, d.body, encoding, events) == m
  {
  }

  /** A hit is served from the cache and leaves the cache as it is. */
  lemma HitNotRecaptured(m: map<string, Cache.Entry>, key: string, upstreamQuery: string, helpPage: string,
                         encoding: Option<string>, events: seq<Event>)
    requires key in m
    ensures var d := Decide(key, Get(m, key), upstreamQuery, helpPage);
      !d.compress && d.key == None && d.body == Koa.Bytes(m[key].full)
      && Captured(m, d.key, d.body, encoding, events) == m
  {
  }

  /** After a miss on the proxied path whose upstream stream emits its
      chunks and ends, a later request on the same path whose query has
      the same pairs per name (in any interleaving of names) is a hit: it
      gets the same key, is not compressed again, carries the stored
      `content-encoding` if one was recorded, and its body is the
      captured bytes. */
  lemma HitAfterCommit(cfg: Config, pathname: string, urlA: string, a: seq<Param>,
                       urlB: string, b: seq<Param>, m: map<string, Cache.Entry>,
                       helpA: string, helpB: string, upstreamB: string,
                       encoding: Option<string>, events: seq<Event>, i: nat)
    requires pathname != "/"
    requires Route(cfg, pathname, urlA, a).Success?
    requires Route(cfg, pathname, urlA, a).value.key !in m
    requires SameByName(a, b)
    requires i < |events| && events[i] == End
    requires forall j :: 0 <= j < |events| && j != i ==> events[j].Data?
    ensures
      var k := Route(cfg, pathname, urlA, a).value.key;
      var miss := Decide(k, Get(m, k), k, helpA);
      var m' := Captured(m, miss.key, miss.body, encoding, events);
      && Route(cfg, pathname, urlB, b).Success?
      && Route(cfg, pathname, urlB, b).value.key == k
      && Decide(k, Get(m', k), upstreamB, helpB) ==
         Decision(false, if Truthy(encoding) then encoding else None, None, Koa.Bytes(Concat(Chunks(events[..i]))))
  {
    var k := Route(cfg, pathname, urlA, a).value.key;
    assert pathname != "/favicon.ico" && Slice1(pathname) == cfg.supported;
    ProxiedTarget(cfg, pathname, urlA, a);
    KeyDeterminism(a, b, cfg.limit);
    var miss := Decide(k, Get(m, k), k, helpA);
    MissArmsCapture(k, k, helpA);
    CommitOnEnd(m, miss.key, miss.body, encoding, events, i);
  }

  /** An upstream stream that never ends leaves the miss uncached: the
      next request with the same key is a miss again. */
  lemma UnfinishedStreamStaysMiss(key: string, m: map<string, Cache.Entry>, helpPage: string,
                                  encoding: Option<string>, events: seq<Event>)
    requires key != "" && key != "/" && key !in m
    requires forall j :: 0 <= j < |events| ==> events[j].Data?
    ensures var miss := Decide(key, None, key, helpPage);
      Captured(m, miss.key, miss.body, encoding, events) == m
  {
    NoEndNoCommit(m, key, encoding, [], events);
  }
}
