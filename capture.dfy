/** The capture-and-commit middleware: once the rest of the chain has run,
    it listens on the response stream, collects every `data` chunk and, on
    `end`, stores the concatenation with the response's
    `content-encoding`. The stream is a sequence of events. */
module Capture {
  import opened Common
  import Cache
  import Koa

  /** What the response stream emits. */
  datatype Event = Data(chunk: seq<byte>) | End

  /** `Buffer.concat(chunks)`. */
  function Concat(chunks: seq<seq<byte>>): (r: seq<byte>)
  {
    if chunks == [] then [] else Concat(chunks[..|chunks| - 1]) + chunks[|chunks| - 1]
  }

  /** The chunks of the `data` events, in order. */
  function Chunks(events: seq<Event>): seq<seq<byte>>
  {
    if events == [] then []
    else (if events[0].Data? then [events[0].chunk] else []) + Chunks(events[1..])
  }

  /** The guard: `ctx.key` is truthy and `ctx.body` is a stream (present
      and with an `on` method). */
  predicate Armed(key: Option<string>, body: Koa.Body)
  {
    Truthy(key) && Koa.IsStream(body)
  }

  /** The two listeners at work on `events`, with `buffers` collected so
      far: `data` pushes its chunk, `end` stores the concatenation. */
  function Replay(m: map<string, Cache.Entry>, key: string, encoding: Option<string>,
                  buffers: seq<seq<byte>>, events: seq<Event>): map<string, Cache.Entry>
    decreases |events|
  {
    if events == [] then m
    else match events[0]
      case Data(c) => Replay(m, key, encoding, buffers + [c], events[1..])
      case End => Replay(m[key := Cache.Entry(Concat(buffers), encoding)], key, encoding, buffers, events[1..])
  }

  /** The cache after the middleware has seen the whole stream. */
  function Captured(m: map<string, Cache.Entry>, key: Option<string>, body: Koa.Body,
                    encoding: Option<string>, events: seq<Event>): map<string, Cache.Entry>
  {
    if Armed(key, body) then Replay(m, key.value, encoding, [], events) else m
  }

  /** `cacheStore` after `next()` has settled: `events` is what the body
      stream emits afterwards. */
  method CacheStore(ctx: Koa.Context, events: seq<Event>)
    modifies ctx.lru
    ensures ctx.lru.entries ==
      Captured(old(ctx.lru.entries), ctx.key, ctx.body, Get(ctx.responseHeaders, "content-encoding"), events)
  {
    if !Truthy(ctx.key) || ctx.body == Koa.NoBody || !Koa.IsStream(ctx.body) {
      return;
    }
    var key := ctx.key.value;
    var buffers: seq<seq<byte>> := [];
    var encoding := Get(ctx.responseHeaders, "content-encoding");
    ghost var m0 := ctx.lru.entries;
    var i := 0;
    while i < |events|
      invariant 0 <= i <= |events|
      invariant Replay(m0, key, encoding, [], events) == Replay(ctx.lru.entries, key, encoding, buffers, events[i..])
    {
      assert events[i..][1..] == events[i + 1..];
      if events[i].Data? {
        buffers := buffers + [events[i].chunk];
      } else {
        ctx.lru.Set(key, Cache.Entry(Concat(buffers), encoding));
      }
      i := i + 1;
    }
  }

  // ------------------------------------------------------------ properties

  /** No capture without a truthy key, without a body, or when the body is
      not a stream (a cached `Buffer`, the help page's string). */
  lemma GuardNoOp(m: map<string, Cache.Entry>, key: Option<string>, body: Koa.Body,
                  encoding: Option<string>, events: seq<Event>)
    requires !Truthy(key) || body == Koa.NoBody || !Koa.IsStream(body)
    ensures Captured(m, key, body, encoding, events) == m
  {
  }

  /** A stream that never ends commits nothing. */
  lemma {:induction false} NoEndNoCommit(m: map<string, Cache.Entry>, key: string, encoding: Option<string>,
                                         buffers: seq<seq<byte>>, events: seq<Event>)
    requires forall j :: 0 <= j < |events| ==> events[j].Data?
    ensures Replay(m, key, encoding, buffers, events) == m
    decreases |events|
  {
    if events != [] {
      NoEndNoCommit(m, key, encoding, buffers + [events[0].chunk], events[1..]);
    }
  }

  /** Data before the first `end` is collected in order, and `end` stores
      all of it at once. */
  lemma {:induction false} ReplayToEnd(m: map<string, Cache.Entry>, key: string, encoding: Option<string>,
                                       buffers: seq<seq<byte>>, events: seq<Event>, i: nat)
    requires i < |events| && events[i] == End
    requires forall j :: 0 <= j < i ==> events[j].Data?
    ensures var collected := buffers + Chunks(events[..i]);
      Replay(m, key, encoding, buffers, events) ==
      Replay(m[key := Cache.Entry(Concat(collected), encoding)], key, encoding, collected, events[i + 1..])
    decreases i
  {
    if i == 0 {
      assert events[..0] == [];
      assert buffers + Chunks(events[..0]) == buffers;
      assert events[1..] == events[i + 1..];
    } else {
      var c := events[0].chunk;
      ReplayToEnd(m, key, encoding, buffers + [c], events[1..], i - 1);
      assert events[1..][..i - 1] == events[..i][1..];
      assert Chunks(events[..i]) == [c] + Chunks(events[1..][..i - 1]);
      assert events[1..][i - 1 + 1..] == events[i + 1..];
      assert (buffers + [c]) + Chunks(events[1..][..i - 1]) == buffers + Chunks(events[..i]);
      assert Replay(m, key, encoding, buffers, events) == Replay(m, key, encoding, buffers + [c], events[1..]);
    }
  }

  /** A stream with exactly one `end` stores exactly the chunks emitted
      before it, concatenated in order, under the key, with the encoding
      read when capture began; every other key keeps its entry. */
  lemma CommitOnEnd(m: map<string, Cache.Entry>, key: Option<string>, body: Koa.Body,
                    encoding: Option<string>, events: seq<Event>, i: nat)
    requires Armed(key, body)
    requires i < |events| && events[i] == End
    requires forall j :: 0 <= j < |events| && j != i ==> events[j].Data?
    ensures Captured(m, key, body, encoding, events) ==
      m[key.value := Cache.Entry(Concat(Chunks(events[..i])), encoding)]
  {
    ReplayToEnd(m, key.value, encoding, [], events, i);
    assert [] + Chunks(events[..i]) == Chunks(events[..i]);
    var m' := m[key.value := Cache.Entry(Concat(Chunks(events[..i])), encoding)];
    NoEndNoCommit(m', key.value, encoding, Chunks(events[..i]), events[i + 1..]);
  }

  /** Capture writes only under its own key. */
  lemma {:induction false} OtherKeysKept(m: map<string, Cache.Entry>, key: string, encoding: Option<string>,
                                         buffers: seq<seq<byte>>, events: seq<Event>, other: string)
    requires other != key
    ensures Get(Replay(m, key, encoding, buffers, events), other) == Get(m, other)
    decreases |events|
  {
    if events != [] {
      match events[0]
      case Data(c) =>
        OtherKeysKept(m, key, encoding, buffers + [c], events[1..], other);
      case End =>
        OtherKeysKept(m[key := Cache.Entry(Concat(buffers), encoding)], key, encoding, buffers, events[1..], other);
    }
  }

  /** `Buffer.concat` keeps every byte, in order: the stored body is the
      chunks laid end to end. */
  lemma {:induction false} ConcatAppend(a: seq<seq<byte>>, b: seq<seq<byte>>)
    ensures Concat(a + b) == Concat(a) + Concat(b)
    decreases |b|
  {
    if b == [] {
      assert a + b == a;
    } else {
      var last := |b| - 1;
      assert (a + b)[..|a + b| - 1] == a + b[..last];
      ConcatAppend(a, b[..last]);
    }
  }

  /** The `data` chunks of a stream cut in two are those of the first part
      followed by those of the second. */
  lemma {:induction false} ChunksAppend(a: seq<Event>, b: seq<Event>)
    ensures Chunks(a + b) == Chunks(a) + Chunks(b)
    decreases |a|
  {
    if a == [] {
      assert a + b == b;
    } else {
      assert (a + b)[1..] == a[1..] + b;
      ChunksAppend(a[1..], b);
    }
  }

  /** The bytes `end` stores for a stream cut in two are the bytes of the
      first part followed by those of the second. */
  lemma StoredBytesSplit(a: seq<Event>, b: seq<Event>)
    ensures Concat(Chunks(a + b)) == Concat(Chunks(a)) + Concat(Chunks(b))
  {
    ChunksAppend(a, b);
    ConcatAppend(Chunks(a), Chunks(b));
  }
}
