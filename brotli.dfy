/** The Brotli preference filter: a request whose `accept-encoding` lists
    `br` as one of its comma-separated entries has that header replaced
    by `br` alone before the compression middleware reads it. */
module Brotli {
  import opened Common
  import opened JsString
  import Koa

  /** `h.split(',').map((encoding) => encoding.trim())`. */
  function Tokens(h: string): (r: seq<string>)
    ensures |r| >= 1
    ensures forall i :: 0 <= i < |r| ==> Trimmed(r[i])
  {
    var parts := Split(h, ',');
    seq(|parts|, i requires 0 <= i < |parts| => Trim(parts[i]))
  }

  /** `isBrotli`: the header is present, not empty, and one of its trimmed
      entries is exactly `br` (no q-value parsing). */
  predicate IsBrotli(h: Option<string>)
  {
    Truthy(h) && "br" in Tokens(h.value)
  }

  /** The request headers after the filter. */
  function PreferBrotli(headers: map<string, string>): map<string, string>
  {
    if IsBrotli(Get(headers, "accept-encoding")) then headers["accept-encoding" := "br"] else headers
  }

  /** `brotliFirst` up to the call of `next()`: only the request headers
      change. */
  method BrotliFirst(ctx: Koa.Context)
    modifies ctx
    ensures ctx.requestHeaders == PreferBrotli(old(ctx.requestHeaders))
    ensures ctx.responseHeaders == old(ctx.responseHeaders) && ctx.contentType == old(ctx.contentType)
    ensures ctx.compress == old(ctx.compress) && ctx.key == old(ctx.key) && ctx.body == old(ctx.body)
  {
    if IsBrotli(Get(ctx.requestHeaders, "accept-encoding")) {
      ctx.requestHeaders := ctx.requestHeaders["accept-encoding" := "br"];
    }
  }

  // ------------------------------------------------------------ properties

  /** An entry that is `br` with white space around it. */
  ghost predicate PaddedBr(f: string)
  {
    exists i, j :: 0 <= i <= j <= |f| && f[i..j] == "br" && WhiteSpaceOnly(f[..i]) && WhiteSpaceOnly(f[j..])
  }

  /** An entry trims to `br` exactly when it is `br` padded with white
      space. */
  lemma TrimIsBr(f: string)
    ensures Trim(f) == "br" <==> PaddedBr(f)
  {
    if Trim(f) == "br" {
      TrimmedToBr(f);
    }
    if PaddedBr(f) {
      PaddedTrimsToBr(f);
    }
  }

  lemma TrimmedToBr(f: string)
    requires Trim(f) == "br"
    ensures PaddedBr(f)
  {
    TrimRemovesWhiteSpace(f);
    var i, j :| 0 <= i <= j <= |f| && Trim(f) == f[i..j] && WhiteSpaceOnly(f[..i]) && WhiteSpaceOnly(f[j..]);
    assert f[i..j] == "br";
  }

  lemma PaddedTrimsToBr(f: string)
    requires PaddedBr(f)
    ensures Trim(f) == "br"
  {
    var i, j :| 0 <= i <= j <= |f| && f[i..j] == "br" && WhiteSpaceOnly(f[..i]) && WhiteSpaceOnly(f[j..]);
    assert f == f[..i] + f[i..j] + f[j..];
    assert Trimmed("br");
    TrimOfPadded(f[..i], "br", f[j..]);
  }

  /** `isBrotli` holds of a present header exactly when one of its
      comma-separated entries is `br` padded with white space. */
  lemma IsBrotliListed(s: string)
    ensures IsBrotli(Some(s)) <==> exists f :: f in Split(s, ',') && PaddedBr(f)
  {
    var parts := Split(s, ',');
    var tokens := Tokens(s);
    if IsBrotli(Some(s)) {
      var k :| 0 <= k < |tokens| && tokens[k] == "br";
      TrimIsBr(parts[k]);
      assert parts[k] in parts;
    }
    if exists f :: f in parts && PaddedBr(f) {
      var f :| f in parts && PaddedBr(f);
      var k :| 0 <= k < |parts| && parts[k] == f;
      TrimIsBr(f);
      assert tokens[k] == "br";
      assert PaddedBr(f) ==> |f| >= 2;
      assert s != "";
    }
  }

  /** Without a header the filter does nothing. */
  lemma AbsentNotBrotli()
    ensures !IsBrotli(None)
    ensures !IsBrotli(Some(""))
  {
    assert Split("", ',') == [""];
  }

  lemma TokensOfBr()
    ensures Tokens("br") == ["br"]
  {
    SplitField("br", ',');
    TrimOfTrimmed("br");
  }

  /** The rewritten header still selects Brotli, so the filter reaches a
      fixed point after one application. */
  lemma PreferBrotliIdempotent(headers: map<string, string>)
    ensures IsBrotli(Get(PreferBrotli(headers), "accept-encoding")) == IsBrotli(Get(headers, "accept-encoding"))
    ensures PreferBrotli(PreferBrotli(headers)) == PreferBrotli(headers)
  {
    TokensOfBr();
  }

  /** The filter never advertises an encoding the client did not list and
      touches no other header. */
  lemma PreferBrotliNarrows(headers: map<string, string>)
    ensures forall n :: n != "accept-encoding" ==> Get(PreferBrotli(headers), n) == Get(headers, n)
    ensures Get(PreferBrotli(headers), "accept-encoding").Some? <==> Get(headers, "accept-encoding").Some?
    ensures var before, after := Get(headers, "accept-encoding"), Get(PreferBrotli(headers), "accept-encoding");
      after.Some? ==> forall t :: t in Tokens(after.value) ==> t in Tokens(before.value)
  {
    TokensOfBr();
  }

  /** The tokens of a header written as a list of entries without commas
      are the trimmed entries. */
  lemma TokensOfEntries(entries: seq<string>)
    requires |entries| >= 1
    requires forall i :: 0 <= i < |entries| ==> ',' !in entries[i]
    ensures |Tokens(Join(entries, ','))| == |entries|
    ensures forall i :: 0 <= i < |entries| ==> Tokens(Join(entries, ','))[i] == Trim(entries[i])
  {
    SplitJoin(entries, ',');
  }

  /** A header listing entries one of which trims to `br` selects Brotli. */
  lemma ListedEntry(entries: seq<string>, k: nat)
    requires k < |entries|
    requires forall i :: 0 <= i < |entries| ==> ',' !in entries[i]
    requires Trim(entries[k]) == "br"
    ensures IsBrotli(Some(Join(entries, ',')))
  {
    TokensOfEntries(entries);
    var s := Join(entries, ',');
    assert Tokens(s)[k] == "br";
    assert s == "" ==> Tokens(s) == [""];
  }

  /** A header none of whose entries trims to `br` does not. */
  lemma UnlistedEntries(entries: seq<string>)
    requires |entries| >= 1
    requires forall i :: 0 <= i < |entries| ==> ',' !in entries[i]
    requires forall i :: 0 <= i < |entries| ==> Trim(entries[i]) != "br"
    ensures !IsBrotli(Some(Join(entries, ',')))
  {
    TokensOfEntries(entries);
  }

  /** The single space after a comma is trimmed away. */
  lemma TrimAfterSpace(core: string)
    requires Trimmed(core)
    ensures Trim([' '] + core) == core
  {
    assert [' '] + core + [] == [' '] + core;
    TrimOfPadded([' '], core, []);
  }
}

/** Header values as browsers send them. */
module BrotliExamples {
  import opened Common
  import opened JsString
  import opened Brotli

  /** `gzip, deflate, br` selects Brotli. */
  lemma BrotliAmongOthers()
    ensures IsBrotli(Some("gzip, deflate, br"))
  {
    var entries := ["gzip", " deflate", " br"];
    BrowserEntries();
    TrimSpacedBr();
    ListedEntry(entries, 2);
  }

  lemma BrowserEntries()
    ensures Join(["gzip", " deflate", " br"], ',') == "gzip, deflate, br"
    ensures forall i :: 0 <= i < 3 ==> ',' !in ["gzip", " deflate", " br"][i]
  {
    var entries := ["gzip", " deflate", " br"];
    assert Join(entries[2..], ',') == " br";
    assert Join(entries[1..], ',') == " deflate, br";
  }

  lemma TrimSpacedBr()
    ensures Trim(" br") == "br"
  {
    TrimAfterSpace("br");
    assert [' '] + "br" == " br";
  }

  /** A browser's usual header is replaced by `br` alone. */
  lemma BrowserHeaderRewritten()
    ensures PreferBrotli(map["accept-encoding" := "gzip, deflate, br"]) == map["accept-encoding" := "br"]
  {
    BrotliAmongOthers();
  }

  /** Entries with parameters are compared whole: `br;q=1.0` is not `br`,
      so the header is left as sent. */
  lemma WeightedBrotliIgnored()
    ensures !IsBrotli(Some("gzip, br;q=1.0"))
  {
    WeightedTokens();
    assert "br" != "gzip" && "br" != "br;q=1.0";
  }

  lemma WeightedTokens()
    ensures Tokens("gzip, br;q=1.0") == ["gzip", "br;q=1.0"]
  {
    WeightedSplit();
    TokensOfPair("gzip, br;q=1.0", "gzip", " br;q=1.0");
    TrimGzip();
    TrimSpacedWeight();
  }

  lemma TokensOfPair(h: string, a: string, b: string)
    requires Split(h, ',') == [a, b]
    ensures Tokens(h) == [Trim(a), Trim(b)]
  {
    var t := Tokens(h);
    assert |t| == 2 && t[0] == Trim(a) && t[1] == Trim(b);
  }

  lemma WeightedSplit()
    ensures Split("gzip, br;q=1.0", ',') == ["gzip", " br;q=1.0"]
  {
    var weighted := " br;q=1.0";
    WeightedFieldsCommaFree();
    assert "gzip" + [','] + weighted == "gzip, br;q=1.0";
    SplitPair("gzip", weighted, ',');
  }

  lemma WeightedFieldsCommaFree()
    ensures ',' !in "gzip" && ',' !in " br;q=1.0"
  {
  }

  lemma SplitPair(a: string, b: string, sep: char)
    requires sep !in a && sep !in b
    ensures Split(a + [sep] + b, sep) == [a, b]
  {
    SplitField(b, sep);
    SplitPrefix(a, b, sep);
  }

  lemma TrimGzip()
    ensures Trim("gzip") == "gzip"
  {
    TrimOfTrimmed("gzip");
  }

  lemma TrimSpacedWeight()
    ensures Trim(" br;q=1.0") == "br;q=1.0"
  {
    WeightTrimmed();
    WeightSpaced();
    TrimAfterSpace("br;q=1.0");
  }

  lemma WeightTrimmed()
    ensures Trimmed("br;q=1.0")
  {
    var core := "br;q=1.0";
    assert core[0] == 'b' && core[|core| - 1] == '0';
  }

  lemma WeightSpaced()
    ensures [' '] + "br;q=1.0" == " br;q=1.0"
  {
  }
}
