/** The suggestion pipeline of the alt-text manager: which provider is
    asked, which image goes with the prompt (a public URL or the file itself
    inlined as a `data:` URI), and how the model's reply is cleaned before it
    is offered as alt text. WordPress lookups, the HEAD probe and the file
    system are function parameters. */
module AltTextManager {
  import opened Values
  import opened Text
  import opened Words
  import opened Url
  import opened Base64
  import opened BaseClient
  import opened PromptBuilder
  import AiClientFactory
  import OpenAiClient
  import AnthropicClient

  // ---------------------------------------------------------------------------
  // Cleaning the reply: `truncateSuggestion`.

  /** The characters the final `trim` strips: those of a plain `trim` and
      both quote marks. */
  const QuoteTrim: set<char> := DefaultTrim + {'"', '\''}

  /** `^(image of|photo of|picture of)\s*` with `/i`: the first phrase that
      starts `s`, ignoring ASCII case, and the blanks after it are removed;
      a string that starts with none of them is left as it is. */
  function StripPreamble(s: string): (r: string)
    ensures StartsWithCI(s, "image of") ==> r == s[8 + SpaceLen(s[8..])..]
    ensures StartsWithCI(s, "photo of") ==> r == s[8 + SpaceLen(s[8..])..]
    ensures StartsWithCI(s, "picture of") ==> r == s[10 + SpaceLen(s[10..])..]
    ensures !StartsWithCI(s, "image of") && !StartsWithCI(s, "photo of") && !StartsWithCI(s, "picture of") ==> r == s
  {
    if StartsWithCI(s, "image of") then
      assert !StartsWithCI(s, "picture of") by { assert Lower(s[0]) == 'i'; }
      s[8 + SpaceLen(s[8..])..]
    else if StartsWithCI(s, "photo of") then
      assert !StartsWithCI(s, "picture of") by { assert Lower(s[1]) == 'h'; }
      s[8 + SpaceLen(s[8..])..]
    else if StartsWithCI(s, "picture of") then s[10 + SpaceLen(s[10..])..]
    else s
  }

  /** A match of `https?:\/\S+` (with `/i`) starts here: `http` or `https`,
      a colon, a slash, and at least one more character that is not blank. */
  predicate UrlStart(x: string) {
    || (StartsWithCI(x, "http:/") && |x| > 6 && !IsSpace(x[6]))
    || (StartsWithCI(x, "https:/") && |x| > 7 && !IsSpace(x[7]))
  }

  /** No match of `https?:\/\S+` starts anywhere in `x`. */
  predicate NoUrl(x: string) {
    forall i :: 0 <= i <= |x| ==> !UrlStart(x[i..])
  }

  /** `preg_replace('/https?:\/\S+/i', '', $s)`: scanning left to right,
      every match is removed; since `\S+` is greedy, a match runs to the
      next blank or to the end. */
  function StripUrls(s: string): (r: string)
    ensures |r| <= |s|
    decreases |s|
  {
    if s == [] then []
    else if UrlStart(s) then
      assert !IsSpace(s[0]) by { assert Lower(s[0]) == 'h'; }
      StripUrls(s[NonSpaceLen(s)..])
    else [s[0]] + StripUrls(s[1..])
  }

  /** `truncateSuggestion($suggestion)`: trim, drop one leading "image of"
      phrase, keep the first `max_words` words when that is positive, delete
      URLs, trim blanks and quotes. */
  function TruncateSuggestion(s: string, config: Value): (r: string)
    ensures NoUrl(r)
    ensures r == [] || (r[0] !in QuoteTrim && r[|r| - 1] !in QuoteTrim)
    ensures MaxWords(config) > 0 ==> CountWords(r) <= MaxWords(config)
  {
    var t := StripPreamble(Trim(s, DefaultTrim));
    var n := MaxWords(config);
    var t := if n > 0 then LimitWords(t, n) else t;
    FinalStages(t);
    Trim(StripUrls(t), QuoteTrim)
  }

  /** The last two steps leave no URL and add no word. */
  lemma FinalStages(t: string)
    ensures var r := Trim(StripUrls(t), QuoteTrim);
            NoUrl(r) && CountWords(r) <= CountWords(t)
  {
    var u := StripUrls(t);
    StripUrlsNoUrl(t);
    StripUrlsWords(t, false);
    TrimIsInfix(u, QuoteTrim);
  }

  /** A trim has no URL and no word its argument does not have. */
  lemma TrimIsInfix(u: string, cs: set<char>)
    ensures NoUrl(u) ==> NoUrl(Trim(u, cs))
    ensures CountWords(Trim(u, cs)) <= CountWords(u)
  {
    var i := LeftCut(u, cs);
    var j := i + |Trim(u, cs)|;
    if NoUrl(u) {
      NoUrlInfix(u, i, j);
      SameNoUrl(Trim(u, cs), u[i..j]);
    }
    InfixWords(u, i, j);
  }

  lemma SameNoUrl(x: string, y: string)
    requires x == y && NoUrl(y)
    ensures NoUrl(x)
  {
  }

  /** A match needs its first characters: one that starts a string also
      starts any longer string with the same beginning. */
  lemma UrlStartExtends(p: string, q: string)
    requires p <= q && UrlStart(p)
    ensures UrlStart(q)
  {
    assert forall i :: 0 <= i < |p| ==> q[i] == p[i];
  }

  /** A match that starts `r` lies within its first run of non-blanks, so a
      string `s` that begins with that same run starts a match too. */
  lemma UrlStartTransfer(r: string, s: string)
    requires NonSpaceLen(r) <= |s| && r[..NonSpaceLen(r)] == s[..NonSpaceLen(r)]
    ensures UrlStart(r) ==> UrlStart(s)
  {
    var n := NonSpaceLen(r);
    if StartsWithCI(r, "http:/") && |r| > 6 && !IsSpace(r[6]) {
      assert forall i :: 0 <= i < 7 ==> !IsSpace(r[i]) by {
        assert Lower(r[0]) == 'h' && Lower(r[1]) == 't' && Lower(r[2]) == 't' && Lower(r[3]) == 'p';
        assert Lower(r[4]) == ':' && Lower(r[5]) == '/';
      }
      assert n >= 7;
      assert forall i :: 0 <= i < 7 ==> s[i] == r[..n][i];
    } else if StartsWithCI(r, "https:/") && |r| > 7 && !IsSpace(r[7]) {
      assert forall i :: 0 <= i < 8 ==> !IsSpace(r[i]) by {
        assert Lower(r[0]) == 'h' && Lower(r[1]) == 't' && Lower(r[2]) == 't' && Lower(r[3]) == 'p';
        assert Lower(r[4]) == 's' && Lower(r[5]) == ':' && Lower(r[6]) == '/';
      }
      assert n >= 8;
      assert forall i :: 0 <= i < 8 ==> s[i] == r[..n][i];
    }
  }

  /** The first run of non-blanks of the stripped text is copied from the
      start of the original: removing a match leaves a blank, or nothing, in
      its place. */
  lemma {:induction false} StripUrlsRun(s: string)
    ensures var r := StripUrls(s);
            NonSpaceLen(r) <= |s| && r[..NonSpaceLen(r)] == s[..NonSpaceLen(r)]
    decreases |s|
  {
    var r := StripUrls(s);
    if s != [] && !UrlStart(s) {
      StripUrlsRun(s[1..]);
      if !IsSpace(s[0]) {
        KeptRun(s, r, StripUrls(s[1..]));
      } else {
        assert r[0] == s[0];
      }
    } else if s != [] {
      var rest := s[NonSpaceLen(s)..];
      if rest != [] {
        assert IsSpace(rest[0]);
        assert !UrlStart(rest) by { assert Lower(rest[0]) != 'h'; }
        assert r[0] == rest[0];
      }
    }
  }

  lemma KeptRun(s: string, r: string, r': string)
    requires s != [] && !IsSpace(s[0]) && r == [s[0]] + r'
    requires NonSpaceLen(r') <= |s| - 1 && r'[..NonSpaceLen(r')] == s[1..][..NonSpaceLen(r')]
    ensures NonSpaceLen(r) <= |s| && r[..NonSpaceLen(r)] == s[..NonSpaceLen(r)]
  {
    var m := NonSpaceLen(r');
    assert r[1..] == r';
    assert NonSpaceLen(r) == 1 + m;
    assert r[..m + 1] == [s[0]] + r'[..m];
    assert s[..m + 1] == [s[0]] + s[1..][..m];
  }

  /** Nothing that matches survives: no match starts anywhere in the
      result. */
  lemma {:induction false} StripUrlsNoUrl(s: string)
    ensures NoUrl(StripUrls(s))
    decreases |s|
  {
    var r := StripUrls(s);
    if s == [] {
      assert r[0..] == [];
    } else if UrlStart(s) {
      StripUrlsNoUrl(s[NonSpaceLen(s)..]);
    } else {
      var r' := StripUrls(s[1..]);
      StripUrlsNoUrl(s[1..]);
      assert r == [s[0]] + r';
      forall i | 1 <= i <= |r| ensures !UrlStart(r[i..]) {
        assert r[i..] == r'[i - 1..];
      }
      StripUrlsRun(s);
      UrlStartTransfer(r, s);
      assert r[0..] == r;
    }
  }

  /** A piece cut out of a text without matches has none either. */
  lemma NoUrlInfix(x: string, i: nat, j: nat)
    requires i <= j <= |x| && NoUrl(x)
    ensures NoUrl(x[i..j])
  {
    forall k | 0 <= k <= j - i ensures !UrlStart(x[i..j][k..]) {
      assert x[i..j][k..] <= x[i + k..];
      if UrlStart(x[i..j][k..]) {
        UrlStartExtends(x[i..j][k..], x[i + k..]);
      }
    }
  }

  /** Removing matches never adds a word: each removal ends at a blank or at
      the end, so it cannot join two words. */
  lemma {:induction false} StripUrlsWords(s: string, f: bool)
    ensures WordsFrom(StripUrls(s), f) <= WordsFrom(s, f)
    decreases |s|
  {
    if s == [] {
    } else if UrlStart(s) {
      var k := NonSpaceLen(s);
      assert k > 0 by { assert Lower(s[0]) == 'h'; }
      var rest := s[k..];
      assert s == s[..k] + rest;
      WordsConcat(s[..k], rest, f);
      assert EndsInWord(s[..k], f);
      if rest != [] {
        assert IsSpace(rest[0]);
        assert !UrlStart(rest) by { assert Lower(rest[0]) != 'h'; }
        var inner := StripUrls(rest[1..]);
        assert StripUrls(rest) == [rest[0]] + inner;
        assert ([rest[0]] + inner)[1..] == inner;
        StripUrlsWords(rest[1..], false);
        assert WordsFrom(StripUrls(rest), f) == WordsFrom(inner, false);
        assert WordsFrom(rest, true) == WordsFrom(rest[1..], false);
      }
    } else {
      var r' := StripUrls(s[1..]);
      assert StripUrls(s) == [s[0]] + r';
      assert ([s[0]] + r')[1..] == r';
      StripUrlsWords(s[1..], !IsSpace(s[0]));
    }
  }

  /** Text with no match goes through the URL filter unchanged. */
  lemma {:induction false} StripUrlsKeepsClean(s: string)
    requires NoUrl(s)
    ensures StripUrls(s) == s
    decreases |s|
  {
    if s != [] {
      assert s[0..] == s;
      assert NoUrl(s[1..]) by {
        forall i | 0 <= i <= |s[1..]| ensures !UrlStart(s[1..][i..]) {
          assert s[1..][i..] == s[i + 1..];
        }
      }
      StripUrlsKeepsClean(s[1..]);
      assert [s[0]] + s[1..] == s;
    }
  }

  /** A string whose ends are outside `cs` is its own trim. */
  lemma TrimClean(s: string, cs: set<char>)
    requires s == [] || (s[0] !in cs && s[|s| - 1] !in cs)
    ensures Trim(s, cs) == s
  {
  }

  /** One of the phrases, in any mix of ASCII case, followed by blanks and a
      text that does not start with a blank, loses exactly the phrase and
      the blanks: a second phrase in the text stays. */
  lemma PreambleStripsOnce(phrase: string, written: string, blanks: string, t: string)
    requires phrase == "image of" || phrase == "photo of" || phrase == "picture of"
    requires |written| == |phrase| && StartsWithCI(written, phrase)
    requires forall i :: 0 <= i < |blanks| ==> IsSpace(blanks[i])
    requires t == [] || !IsSpace(t[0])
    ensures StripPreamble(written + blanks + t) == t
  {
    var s := written + (blanks + t);
    assert written + blanks + t == s;
    PrefixStartsCI(written, blanks + t, phrase);
    SkipBlanks(s, |phrase|, blanks, t);
    if phrase == "photo of" {
      assert !StartsWithCI(s, "image of") by { assert Lower(s[0]) == phrase[0]; }
    } else if phrase == "picture of" {
      assert !StartsWithCI(s, "image of") by { assert Lower(s[0]) == phrase[0]; }
      assert !StartsWithCI(s, "photo of") by { assert Lower(s[1]) == phrase[1]; }
    }
  }

  lemma PrefixStartsCI(w: string, rest: string, p: string)
    requires |w| == |p| && StartsWithCI(w, p)
    ensures StartsWithCI(w + rest, p)
  {
    forall i | 0 <= i < |p| ensures Lower((w + rest)[i]) == p[i] {
      assert (w + rest)[i] == w[i];
    }
  }

  /** Past position `n`, the `\s*` after a phrase takes exactly the blanks. */
  lemma SkipBlanks(s: string, n: nat, blanks: string, t: string)
    requires n <= |s| && s[n..] == blanks + t
    requires forall i :: 0 <= i < |blanks| ==> IsSpace(blanks[i])
    requires t == [] || !IsSpace(t[0])
    ensures n + SpaceLen(s[n..]) <= |s| && s[n + SpaceLen(s[n..])..] == t
  {
    SpacesThenText(blanks, t);
    assert s[n + |blanks|..] == (blanks + t)[|blanks|..];
  }

  lemma {:induction false} SpacesThenText(blanks: string, t: string)
    requires forall i :: 0 <= i < |blanks| ==> IsSpace(blanks[i])
    requires t == [] || !IsSpace(t[0])
    ensures SpaceLen(blanks + t) == |blanks|
  {
    if blanks == [] {
      assert blanks + t == t;
    } else {
      assert (blanks + t)[1..] == blanks[1..] + t;
      SpacesThenText(blanks[1..], t);
    }
  }

  /** A reply that is already clean comes back unchanged: trimmed of blanks
      and quotes, not opening with one of the phrases, without URLs, and
      within the word limit when there is one. */
  lemma CleanReplyUnchanged(s: string, config: Value)
    requires s == [] || (s[0] !in QuoteTrim && s[|s| - 1] !in QuoteTrim)
    requires !StartsWithCI(s, "image of") && !StartsWithCI(s, "photo of") && !StartsWithCI(s, "picture of")
    requires NoUrl(s)
    requires MaxWords(config) > 0 ==> CountWords(s) <= MaxWords(config)
    ensures TruncateSuggestion(s, config) == s
  {
    TrimClean(s, DefaultTrim);
    StripUrlsKeepsClean(s);
    TrimClean(s, QuoteTrim);
  }

  // ---------------------------------------------------------------------------
  // The short file name of the attachment context.

  /** `preg_replace('/\.[^.]+$/', '', $filename)`: the last extension, a dot
      and at least one more character, is removed. */
  function ShortFilename(f: string): (r: string)
    ensures r <= f
  {
    var dot := LastIndex(f, '.');
    if dot.Some? && dot.value < |f| - 1 then f[..dot.value] else f
  }

  /** A stem and an extension without dots: the stem comes back. */
  lemma ShortFilenameDropsExtension(stem: string, ext: string)
    requires ext != [] && '.' !in ext
    ensures ShortFilename(stem + "." + ext) == stem
  {
    var f := stem + "." + ext;
    assert f[|stem|] == '.';
    assert forall j :: |stem| < j < |f| ==> f[j] == ext[j - |stem| - 1];
    LastIndexAt(f, '.', |stem|);
    assert f[..|stem|] == stem;
  }

  lemma {:induction false} LastIndexAt(s: string, c: char, k: nat)
    requires k < |s| && s[k] == c && forall j :: k < j < |s| ==> s[j] != c
    ensures LastIndex(s, c) == Some(k)
    decreases |s|
  {
    if k < |s| - 1 {
      LastIndexAt(s[..|s| - 1], c, k);
    }
  }

  // ---------------------------------------------------------------------------
  // The image sent with the prompt: `resolveImageSource`.

  /** The answer of `wp_remote_head($url)`: a `WP_Error`, or a response with
      its status code (`0` when it has none). */
  datatype HeadResponse = WpError | Response(code: int)

  /** `file_exists`, `filesize` (`None` for `false`) and
      `file_get_contents` (`None` for `false`). */
  datatype Disk = Disk(
    fileExists: string -> bool,
    fileSize: string -> Option<int>,
    readFile: string -> Option<seq<byte>>)

  const DefaultMaxBytes: int := 1500000
  const DefaultMime: string := "application/octet-stream"

  /** `$this->config['vision'] ?? []`. */
  function Vision(config: Value): Value {
    Coalesce(Get(config, "vision"), Obj([]))
  }

  /** `array_values(array_unique($xs))`: the first copy of each string, in
      order. */
  function Unique(xs: seq<string>): (r: seq<string>)
    ensures forall i, j :: 0 <= i < j < |r| ==> r[i] != r[j]
    ensures forall x :: x in r <==> x in xs
    ensures xs != [] ==> r != [] && r[0] == xs[0]
  {
    if xs == [] then []
    else
      var u := Unique(xs[..|xs| - 1]);
      assert xs[..|xs| - 1] != [] ==> xs[..|xs| - 1][0] == xs[0];
      assert forall x :: x in xs <==> x in xs[..|xs| - 1] || x == xs[|xs| - 1] by {
        assert xs == xs[..|xs| - 1] + [xs[|xs| - 1]];
      }
      if xs[|xs| - 1] in u then u else u + [xs[|xs| - 1]]
  }

  /** The URL with its host replaced by the public host and its scheme by
      the public scheme (`https` when unset), when the original has a
      non-empty host that differs from the public host. */
  function Rewrite(original: string, publicHost: Value, vision: Value): Option<string> {
    var parts := ParseUrl(original);
    if parts.host.Some? && Truthy(Str(parts.host.value)) && Str(parts.host.value) != publicHost then
      var scheme := ToStr(Coalesce(Get(vision, "public_scheme"), Str("https")));
      BuildUrl(parts.(host := Some(ToStr(publicHost)), scheme := Some(scheme)))
    else None
  }

  /** The list `candidateUrls` appends to: the attachment URL when it is
      set, then its rewrite when a public host is configured and the
      rewrite succeeds. */
  function RawUrls(ctx: Context, vision: Value): (urls: seq<string>)
    ensures |urls| <= 2
    ensures !Truthy(ctx.url) ==> urls == []
  {
    var original := ctx.url;
    var urls := if Truthy(original) then [ToStr(original)] else [];
    var publicHost := Coalesce(Get(vision, "public_host"), Null);
    var rebuilt := if Truthy(publicHost) && Truthy(original) then Rewrite(ToStr(original), publicHost, vision) else None;
    if rebuilt.Some? && Truthy(Str(rebuilt.value)) then urls + [rebuilt.value] else urls
  }

  /** `candidateUrls($context, $vision)`: that list with empty entries and
      repeats dropped, the first copy kept. */
  function CandidateUrls(ctx: Context, vision: Value): (r: seq<string>)
    ensures forall i, j :: 0 <= i < j < |r| ==> r[i] != r[j]
    ensures forall i :: 0 <= i < |r| ==> Truthy(Str(r[i]))
    ensures !Truthy(ctx.url) ==> r == []
    ensures |r| <= 2
    ensures Truthy(ctx.url) && !Truthy(Field(vision, "public_host")) ==> r == [ToStr(ctx.url)]
    ensures var host := ParseUrl(ToStr(ctx.url)).host;
            Truthy(ctx.url) && (host.None? || !Truthy(Str(host.value))) ==> r == [ToStr(ctx.url)]
  {
    var kept := FilterTruthy(RawUrls(ctx, vision));
    var r := Unique(kept);
    TruthyToStr(ctx.url);
    SingleKept(ToStr(ctx.url));
    assert forall i :: 0 <= i < |r| ==> r[i] in kept;
    UniqueBound(kept);
    r
  }

  /** A truthy value prints as a truthy string. */
  lemma TruthyToStr(v: Value)
    ensures Truthy(v) ==> Truthy(Str(ToStr(v)))
  {
  }

  /** `array_filter` keeps a single truthy entry. */
  lemma SingleKept(u: string)
    ensures Truthy(Str(u)) ==> PromptBuilder.FilterTruthy([u]) == [u]
  {
    assert [u][1..] == [];
  }

  lemma UniqueBound(xs: seq<string>)
    ensures |Unique(xs)| <= |xs|
  {
    if xs != [] {
      UniqueBound(xs[..|xs| - 1]);
    }
  }

  /** Without a rewrite the attachment URL, when it is a non-empty string,
      is the one candidate. */
  lemma OriginalFirst(ctx: Context, vision: Value, u: string)
    requires ctx.url == Str(u) && Truthy(Str(u))
    ensures var r := CandidateUrls(ctx, vision);
            r != [] && r[0] == u
  {
    var raw := RawUrls(ctx, vision);
    assert raw[0] == u;
    assert FilterTruthy(raw) == [u] + FilterTruthy(raw[1..]);
  }

  /** A public host equal to the parsed host adds nothing. */
  lemma SameHostNoRewrite(ctx: Context, vision: Value, u: string)
    requires ctx.url == Str(u) && Truthy(Str(u))
    requires ParseUrl(u).host.Some? && Get(vision, "public_host") == Some(Str(ParseUrl(u).host.value))
    ensures CandidateUrls(ctx, vision) == [u]
  {
    assert FilterTruthy([u]) == [u] by { assert [u][1..] == []; }
  }

  /** The rewrite keeps the path and the query of the attachment URL and
      puts the public scheme and host in front: parsing the second candidate
      gives exactly those parts back. */
  lemma RewriteKeepsPathAndQuery(ctx: Context, vision: Value, u: string, host: string, scheme: string)
    requires ctx.url == Str(u) && Truthy(Str(u))
    requires Get(vision, "public_host") == Some(Str(host))
    requires scheme == ToStr(Coalesce(Get(vision, "public_scheme"), Str("https")))
    requires var p := ParseUrl(u); p.host.Some? && Truthy(Str(p.host.value)) && p.host.value != host
    requires scheme != [] && forall i :: 0 <= i < |scheme| ==> scheme[i] !in {':', '/', '?', '#'}
    requires host != [] && host != "0" && forall i :: 0 <= i < |host| ==> host[i] !in {'/', '?', '#', '@', ':'}
    ensures var r := CandidateUrls(ctx, vision);
            var p := ParseUrl(u);
            && |r| == 2 && r[0] == u
            && ParseUrl(r[1]) == UrlParts(Some(scheme), None, Some(host), None, p.path, p.query, None)
  {
    var p := ParseUrl(u);
    ParsedShape(u);
    BuildThenParse(scheme, host, p.path, p.query);
    var v := BuildUrl(UrlParts(Some(scheme), None, Some(host), None, p.path, p.query, None)).value;
    RawRewrite(ctx, vision, u, host, scheme);
    assert v != u by { assert ParseUrl(v).host != ParseUrl(u).host; }
    TwoDistinctKept(u, v);
    assert CandidateUrls(ctx, vision) == [u, v];
  }

  /** With a different public host the list holds the URL and its
      rewrite. */
  lemma RawRewrite(ctx: Context, vision: Value, u: string, host: string, scheme: string)
    requires ctx.url == Str(u) && Truthy(Str(u))
    requires Get(vision, "public_host") == Some(Str(host)) && Truthy(Str(host))
    requires scheme == ToStr(Coalesce(Get(vision, "public_scheme"), Str("https")))
    requires var p := ParseUrl(u); p.host.Some? && Truthy(Str(p.host.value)) && p.host.value != host
    ensures var p := ParseUrl(u);
            var b := BuildUrl(UrlParts(Some(scheme), None, Some(host), None, p.path, p.query, None));
            b.Some? && Truthy(Str(b.value)) && RawUrls(ctx, vision) == [u, b.value]
  {
    var p := ParseUrl(u);
    var b := BuildUrl(UrlParts(Some(scheme), None, Some(host), None, p.path, p.query, None));
    RewriteBuilds(u, vision, host, scheme);
    assert Truthy(Str(b.value)) by { assert |b.value| >= 3; }
  }

  /** The rewrite is `BuildUrl` of the parsed parts with the public scheme
      and host. */
  lemma RewriteBuilds(u: string, vision: Value, host: string, scheme: string)
    requires scheme == ToStr(Coalesce(Get(vision, "public_scheme"), Str("https")))
    requires var p := ParseUrl(u); p.host.Some? && Truthy(Str(p.host.value)) && p.host.value != host
    ensures var p := ParseUrl(u);
            Rewrite(u, Str(host), vision) == BuildUrl(UrlParts(Some(scheme), None, Some(host), None, p.path, p.query, None))
  {
    var p := ParseUrl(u);
    assert BuildUrl(p.(host := Some(host), scheme := Some(scheme)))
        == BuildUrl(UrlParts(Some(scheme), None, Some(host), None, p.path, p.query, None));
  }

  /** Two different non-empty URLs both survive the filter and the
      de-duplication, in order. */
  lemma TwoDistinctKept(u: string, v: string)
    requires u != v && Truthy(Str(u)) && Truthy(Str(v))
    ensures Unique(FilterTruthy([u, v])) == [u, v]
  {
    assert FilterTruthy([u, v]) == [u, v] by {
      assert [u, v][1..] == [v];
      assert [v][1..] == [];
    }
    assert [u, v][..1] == [u];
    assert [u][..0] == [];
  }

  /** `$canUseUrl($url)`: with `check_url` off every URL is used unprobed;
      with it on, only one whose HEAD request succeeded with a non-zero
      status below 400. */
  function Accept(url: string, vision: Value, head: string -> HeadResponse): (ok: bool)
    ensures !Truthy(Field(vision, "check_url")) ==> ok
    ensures Truthy(Field(vision, "check_url")) ==>
              (ok <==> head(url).Response? && head(url).code != 0 && head(url).code < 400)
  {
    if !Truthy(Field(vision, "check_url")) then true
    else match head(url)
      case WpError => false
      case Response(code) => code != 0 && code < 400
  }

  /** What `$useUrl()` returns: the first accepted candidate, as a `url`
      image. */
  function FirstAccepted(urls: seq<string>, vision: Value, head: string -> HeadResponse): (r: Option<Image>)
    ensures r.None? <==> forall i :: 0 <= i < |urls| ==> !Accept(urls[i], vision, head)
    ensures r.Some? ==> (r.value.kind == "url" &&
              exists i :: 0 <= i < |urls| && urls[i] == r.value.value && Accept(urls[i], vision, head) &&
                          forall j :: 0 <= j < i ==> !Accept(urls[j], vision, head))
    ensures !Truthy(Field(vision, "check_url")) ==> r == if urls == [] then None else Some(Image("url", urls[0]))
  {
    if urls == [] then None
    else if Accept(urls[0], vision, head) then Some(Image("url", urls[0]))
    else
      var r := FirstAccepted(urls[1..], vision, head);
      assert forall i :: 1 <= i < |urls| ==> urls[i] == urls[1..][i - 1];
      if r.Some? then
        var k :| 0 <= k < |urls[1..]| && urls[1..][k] == r.value.value && Accept(urls[1..][k], vision, head) &&
                 forall j :: 0 <= j < k ==> !Accept(urls[1..][j], vision, head);
        assert urls[k + 1] == r.value.value;
        r
      else r
  }

  /** `$useUrl()`: the `foreach` over the candidates with its early
      return. */
  method UseUrl(urls: seq<string>, vision: Value, head: string -> HeadResponse) returns (r: Option<Image>)
    ensures r == FirstAccepted(urls, vision, head)
  {
    for i := 0 to |urls|
      invariant FirstAccepted(urls[i..], vision, head) == FirstAccepted(urls, vision, head)
    {
      assert urls[i..][1..] == urls[i + 1..];
      if Accept(urls[i], vision, head) {
        return Some(Image("url", urls[i]));
      }
    }
    assert urls[|urls|..] == [];
    return None;
  }

  /** `$context['mime_type'] ?? 'application/octet-stream'`. */
  function MimeOf(ctx: Context): string {
    ToStr(Coalesce(Some(ctx.mimeType), Str(DefaultMime)))
  }

  /** `$makeBase64()`: nothing when the path is empty or the file is
      missing, when `filesize` exceeds the byte limit (a size equal to the
      limit passes, and so does a failed `filesize`, since `false > $n` is
      false), or when the read fails; otherwise a `base64` image holding the
      `data:` URI of the file's bytes. */
  function MakeBase64(ctx: Context, vision: Value, disk: Disk): (r: Option<Image>)
    ensures !Truthy(ctx.filePath) ==> r.None?
    ensures Truthy(ctx.filePath) && !disk.fileExists(ToStr(ctx.filePath)) ==> r.None?
    ensures var size := disk.fileSize(ToStr(ctx.filePath));
            size.Some? && size.value > ToInt(Coalesce(Get(vision, "max_base64_bytes"), Int(DefaultMaxBytes))) ==> r.None?
    ensures disk.readFile(ToStr(ctx.filePath)).None? ==> r.None?
    ensures r.Some? ==>
              && disk.readFile(ToStr(ctx.filePath)).Some?
              && r.value == Image("base64", DataUri(MimeOf(ctx),
                                                    disk.readFile(ToStr(ctx.filePath)).value))
  {
    var path := ctx.filePath;
    var maxBytes := ToInt(Coalesce(Get(vision, "max_base64_bytes"), Int(DefaultMaxBytes)));
    if !Truthy(path) || !disk.fileExists(ToStr(path)) then None
    else if disk.fileSize(ToStr(path)).Some? && disk.fileSize(ToStr(path)).value > maxBytes then None
    else match disk.readFile(ToStr(path))
      case None => None
      case Some(data) => Some(Image("base64", DataUri(MimeOf(ctx), data)))
  }

  /** An existing, readable file within the limit is always inlined. */
  lemma ReadableFileInlined(ctx: Context, vision: Value, disk: Disk)
    requires Truthy(ctx.filePath) && disk.fileExists(ToStr(ctx.filePath))
    requires var size := disk.fileSize(ToStr(ctx.filePath));
             size.None? || size.value <= ToInt(Coalesce(Get(vision, "max_base64_bytes"), Int(DefaultMaxBytes)))
    requires disk.readFile(ToStr(ctx.filePath)).Some?
    ensures MakeBase64(ctx, vision, disk).Some?
  {
  }

  /** The inlined image reads back, as a `data:` URI, to the media type
      and the very bytes of the file. */
  lemma InlinedImageDecodes(ctx: Context, vision: Value, disk: Disk)
    requires MakeBase64(ctx, vision, disk).Some?
    requires ',' !in MimeOf(ctx)
    ensures ParseDataUri(MakeBase64(ctx, vision, disk).value.value) ==
              Some((MimeOf(ctx), disk.readFile(ToStr(ctx.filePath)).value))
  {
    DataUriRoundTrip(MimeOf(ctx), disk.readFile(ToStr(ctx.filePath)).value);
  }

  /** `resolveImageSource($context)`: nothing when vision is off; with
      mode `base64` the inlined file first and the URLs as fallback, with
      any other mode the URLs first and the file as fallback. */
  function ImageSource(ctx: Context, config: Value, head: string -> HeadResponse, disk: Disk): (r: Option<Image>)
    ensures var vision := Vision(config);
            var fromUrl := FirstAccepted(CandidateUrls(ctx, vision), vision, head);
            var fromFile := MakeBase64(ctx, vision, disk);
            && (!Truthy(Field(vision, "enabled")) ==> r.None?)
            && (Truthy(Field(vision, "enabled")) ==> (r.None? <==> fromUrl.None? && fromFile.None?))
            && (r.Some? ==> r == fromUrl || r == fromFile)
            && (r.Some? ==> r.value.kind == "url" || r.value.kind == "base64")
            && (Coalesce(Get(vision, "mode"), Str("auto")) == Str("base64") && r.Some? && fromFile.Some? ==> r == fromFile)
            && (Coalesce(Get(vision, "mode"), Str("auto")) != Str("base64") && r.Some? && fromUrl.Some? ==> r == fromUrl)
  {
    var vision := Vision(config);
    if !Truthy(Field(vision, "enabled")) then None
    else
      var mode := Coalesce(Get(vision, "mode"), Str("auto"));
      var fromUrl := FirstAccepted(CandidateUrls(ctx, vision), vision, head);
      var fromFile := MakeBase64(ctx, vision, disk);
      if mode == Str("base64") then (if fromFile.Some? then fromFile else fromUrl)
      else (if fromUrl.Some? then fromUrl else fromFile)
  }

  /** `resolveImageSource`, running the candidate loop. */
  method ResolveImageSource(ctx: Context, config: Value, head: string -> HeadResponse, disk: Disk) returns (r: Option<Image>)
    ensures r == ImageSource(ctx, config, head, disk)
  {
    var vision := Vision(config);
    if !Truthy(Field(vision, "enabled")) {
      return None;
    }
    var mode := Coalesce(Get(vision, "mode"), Str("auto"));
    var urls := CandidateUrls(ctx, vision);
    if mode == Str("base64") {
      r := MakeBase64(ctx, vision, disk);
      if r.None? {
        r := UseUrl(urls, vision, head);
      }
    } else {
      r := UseUrl(urls, vision, head);
      if r.None? {
        r := MakeBase64(ctx, vision, disk);
      }
    }
  }

  // ---------------------------------------------------------------------------
  // `suggest`.

  /** An attachment post as `get_post` returns it: its type and the context
      `buildContext` reads from WordPress for it. */
  datatype Post = Post(postType: string, context: Context)

  /** Everything outside the plugin that a suggestion consults. */
  datatype World = World(
    getPost: int -> Option<Post>,
    send: HttpRequest -> Outcome<Value>,
    head: string -> HeadResponse,
    disk: Disk)

  /** The array `suggest` returns. */
  datatype Suggestion = Suggestion(suggestion: string, provider: string, prompt: string, imageMode: string)

  function InvalidAttachment(): Exception {
    Exception(InvalidArgument, "Invalid attachment ID.", 0)
  }

  /** `resolveClient($provider)`'s name: `$provider ?: ($this->config['default_provider'] ?? 'openai')`,
      read as the string `driver(string $name)` receives (see `NameIsArray`
      for the one value that is not coerced). */
  function ClientName(provider: Option<string>, config: Value): (name: string)
    ensures provider.Some? && Truthy(Str(provider.value)) ==> name == provider.value
    ensures (provider.None? || !Truthy(Str(provider.value))) && Field(config, "default_provider") == Null ==> name == "openai"
    ensures (provider.None? || !Truthy(Str(provider.value))) && Field(config, "default_provider") != Null ==>
              name == ToStr(Field(config, "default_provider"))
  {
    if provider.Some? && Truthy(Str(provider.value)) then provider.value
    else ToStr(Coalesce(Get(config, "default_provider"), Str("openai")))
  }

  /** The resolved name is an array: a falsy provider falls back to a
      `default_provider` that is an array, which `driver(string $name)`
      refuses with a TypeError instead of coercing it to a string. */
  predicate NameIsArray(provider: Option<string>, config: Value) {
    (provider.None? || !Truthy(Str(provider.value))) &&
    (Field(config, "default_provider").List? || Field(config, "default_provider").Obj?)
  }

  /** The message of that TypeError. */
  const DriverNameTypeError: string :=
    "FortyQ\\MediaAltSuggester\\Clients\\AiClientFactory::driver(): Argument #1 ($name) must be of type string, array given"

  function NameNotString(): Exception {
    Exception(TypeError, DriverNameTypeError, 0)
  }

  /** `$this->config['providers'][$name]['max_tokens'] ?? null`. */
  function MaxTokensOption(config: Value, name: string): Value {
    Coalesce(Get(Field(Field(config, "providers"), name), "max_tokens"), Null)
  }

  /** `$image['type'] ?? 'none'`. */
  function ImageMode(image: Option<Image>): string {
    if image.Some? then image.value.kind else "none"
  }

  /** What `suggest($attachmentId, $provider)` returns or throws, given the
      factory's provider configuration. A missing post, or one that is not
      an attachment, is refused before a client is resolved; otherwise the
      client (or the factory's exception), the prompt, the image and the
      reply follow one another, and the cleaned reply is returned with the
      provider's name, the prompt and the image mode. */
  function SuggestResult(config: Value, providers: Fields, id: int, provider: Option<string>, world: World): (r: Outcome<Suggestion>)
    ensures var post := world.getPost(id);
            (post.None? || post.value.postType != "attachment") ==> r == Thrown(InvalidAttachment())
    ensures var post := world.getPost(id);
            post.Some? && post.value.postType == "attachment" && NameIsArray(provider, config) ==>
              r == Thrown(NameNotString())
    ensures r.Ok? ==>
              var ctx := world.getPost(id).value.context;
              var image := ImageSource(ctx, config, world.head, world.disk);
              && world.getPost(id).value.postType == "attachment"
              && !NameIsArray(provider, config)
              && r.value.provider == ClientName(provider, config)
              && AiClientFactory.MakeClient(providers, r.value.provider).Ok?
              && r.value.prompt == Build(ctx, config)
              && r.value.imageMode == (if image.Some? then image.value.kind else "none")
              && (r.value.imageMode == "none" || r.value.imageMode == "url" || r.value.imageMode == "base64")
              && NoUrl(r.value.suggestion)
              && (MaxWords(config) > 0 ==> CountWords(r.value.suggestion) <= MaxWords(config))
    ensures var post := world.getPost(id);
            var made := AiClientFactory.MakeClient(providers, ClientName(provider, config));
            post.Some? && post.value.postType == "attachment" && !NameIsArray(provider, config) && made.Thrown? ==>
              r == Thrown(made.error)
    ensures var post := world.getPost(id);
            var made := AiClientFactory.MakeClient(providers, ClientName(provider, config));
            post.Some? && post.value.postType == "attachment" && !NameIsArray(provider, config) && made.Ok? ==>
              var ctx := post.value.context;
              var image := ImageSource(ctx, config, world.head, world.disk);
              var reply := AiClientFactory.Generate(made.value, Build(ctx, config),
                                                    Options(MaxTokensOption(config, GetName(made.value)), image), world.send);
              && (reply.Thrown? ==> r == Thrown(reply.error))
              && (reply.Ok? ==> r.Ok? && r.value.suggestion == TruncateSuggestion(reply.value, config))
  {
    var post := world.getPost(id);
    if post.None? || post.value.postType != "attachment" then Thrown(InvalidAttachment())
    else SuggestFor(config, providers, post.value.context, provider, world)
  }

  /** `suggest` past the attachment check, for the attachment's context. */
  function SuggestFor(config: Value, providers: Fields, ctx: Context, provider: Option<string>, world: World): (r: Outcome<Suggestion>)
    ensures NameIsArray(provider, config) ==> r == Thrown(NameNotString())
    ensures r.Ok? ==>
              var image := ImageSource(ctx, config, world.head, world.disk);
              && !NameIsArray(provider, config)
              && r.value.provider == ClientName(provider, config)
              && AiClientFactory.MakeClient(providers, r.value.provider).Ok?
              && r.value.prompt == Build(ctx, config)
              && r.value.imageMode == (if image.Some? then image.value.kind else "none")
              && (r.value.imageMode == "none" || r.value.imageMode == "url" || r.value.imageMode == "base64")
              && NoUrl(r.value.suggestion)
              && (MaxWords(config) > 0 ==> CountWords(r.value.suggestion) <= MaxWords(config))
    ensures var made := AiClientFactory.MakeClient(providers, ClientName(provider, config));
            !NameIsArray(provider, config) && made.Thrown? ==> r == Thrown(made.error)
    ensures var made := AiClientFactory.MakeClient(providers, ClientName(provider, config));
            !NameIsArray(provider, config) && made.Ok? ==>
              var image := ImageSource(ctx, config, world.head, world.disk);
              var reply := AiClientFactory.Generate(made.value, Build(ctx, config),
                                                    Options(MaxTokensOption(config, GetName(made.value)), image), world.send);
              && (reply.Thrown? ==> r == Thrown(reply.error))
              && (reply.Ok? ==> r.Ok? && r.value.suggestion == TruncateSuggestion(reply.value, config))
  {
    if NameIsArray(provider, config) then Thrown(NameNotString())
    else
      match AiClientFactory.MakeClient(providers, ClientName(provider, config))
      case Thrown(e) => Thrown(e)
      case Ok(client) =>
        var prompt := Build(ctx, config);
        var image := ImageSource(ctx, config, world.head, world.disk);
        var options := Options(MaxTokensOption(config, GetName(client)), image);
        match AiClientFactory.Generate(client, prompt, options, world.send)
        case Thrown(e) => Thrown(e)
        case Ok(text) => Ok(Suggestion(TruncateSuggestion(text, config), GetName(client), prompt, ImageMode(image)))
  }

  /** The factory's cache after `suggest`: a refused post, or an array
      name, reaches no `driver` call and leaves it as it was; otherwise `driver` is asked for the
      resolved name, so a cached name or a failed build leaves the cache as
      it was and a first successful build adds exactly that name. */
  function CacheAfter(cache: map<string, Client>, providers: Fields, config: Value, id: int,
                      provider: Option<string>, world: World): (r: map<string, Client>)
    ensures var post := world.getPost(id);
            (post.None? || post.value.postType != "attachment") ==> r == cache
    ensures var name := ClientName(provider, config);
            var made := AiClientFactory.MakeClient(providers, name);
            (NameIsArray(provider, config) || name in cache || made.Thrown?) ==> r == cache
    ensures var post := world.getPost(id);
            var name := ClientName(provider, config);
            var made := AiClientFactory.MakeClient(providers, name);
            post.Some? && post.value.postType == "attachment" && !NameIsArray(provider, config) &&
            name !in cache && made.Ok? ==>
              r == cache[name := made.value] && r.Keys == cache.Keys + {name}
  {
    var post := world.getPost(id);
    var name := ClientName(provider, config);
    if post.None? || post.value.postType != "attachment" || NameIsArray(provider, config) || name in cache then cache
    else
      match AiClientFactory.MakeClient(providers, name)
      case Thrown(_) => cache
      case Ok(client) => cache[name := client]
  }

  /** End to end through the OpenAI client: for an attachment whose
      provider resolves to an OpenAI client with an API key, when the
      transport answers the request that client builds with a string at
      `choices[0].message.content`, the suggestion is that string trimmed
      by the client and then cleaned by `truncateSuggestion`. */
  lemma SuggestFromOpenAi(config: Value, providers: Fields, id: int, provider: Option<string>, world: World,
                          c: Client, reply: string)
    requires world.getPost(id).Some? && world.getPost(id).value.postType == "attachment"
    requires !NameIsArray(provider, config)
    requires AiClientFactory.MakeClient(providers, ClientName(provider, config)) == Ok(c)
    requires c.driver == OpenAi && Truthy(GetConfig(c, "api_key", Null))
    requires var ctx := world.getPost(id).value.context;
             var options := Options(MaxTokensOption(config, GetName(c)), ImageSource(ctx, config, world.head, world.disk));
             var req := OpenAiClient.Request(c, Build(ctx, config), options).value;
             world.send(req).Ok? && Walk(world.send(req).value, OpenAiClient.ReplyPath) == Some(Str(reply))
    ensures var ctx := world.getPost(id).value.context;
            var r := SuggestResult(config, providers, id, provider, world);
            && r.Ok?
            && r.value.suggestion == TruncateSuggestion(Trim(reply, DefaultTrim), config)
            && r.value.provider == ClientName(provider, config)
            && r.value.prompt == Build(ctx, config)
  {
    var ctx := world.getPost(id).value.context;
    var options := Options(MaxTokensOption(config, GetName(c)), ImageSource(ctx, config, world.head, world.disk));
    OpenAiReplies(c, Build(ctx, config), options, world.send, reply);
    SuggestFromReply(config, providers, id, provider, world, c, Trim(reply, DefaultTrim));
  }

  /** A resolved client whose `generate` answers `text` gives the suggestion
      `truncateSuggestion(text)` under the client's name. */
  lemma SuggestFromReply(config: Value, providers: Fields, id: int, provider: Option<string>, world: World,
                         c: Client, text: string)
    requires world.getPost(id).Some? && world.getPost(id).value.postType == "attachment"
    requires !NameIsArray(provider, config)
    requires AiClientFactory.MakeClient(providers, ClientName(provider, config)) == Ok(c)
    requires var ctx := world.getPost(id).value.context;
             var options := Options(MaxTokensOption(config, GetName(c)), ImageSource(ctx, config, world.head, world.disk));
             AiClientFactory.Generate(c, Build(ctx, config), options, world.send) == Ok(text)
    ensures var ctx := world.getPost(id).value.context;
            var r := SuggestResult(config, providers, id, provider, world);
            && r.Ok?
            && r.value.suggestion == TruncateSuggestion(text, config)
            && r.value.provider == ClientName(provider, config)
            && r.value.prompt == Build(ctx, config)
  {
  }

  lemma OpenAiReplies(c: Client, prompt: string, options: Options, send: HttpRequest -> Outcome<Value>, reply: string)
    requires c.driver == OpenAi && Truthy(GetConfig(c, "api_key", Null))
    requires var req := OpenAiClient.Request(c, prompt, options).value;
             send(req).Ok? && Walk(send(req).value, OpenAiClient.ReplyPath) == Some(Str(reply))
    ensures AiClientFactory.Generate(c, prompt, options, send) == Ok(Trim(reply, DefaultTrim))
  {
    OpenAiClient.GenerateWithKey(c, prompt, options, send);
  }

  /** The same through the Anthropic client, whose answer sits at
      `content[0].text`. */
  lemma SuggestFromAnthropic(config: Value, providers: Fields, id: int, provider: Option<string>, world: World,
                             c: Client, reply: string)
    requires world.getPost(id).Some? && world.getPost(id).value.postType == "attachment"
    requires !NameIsArray(provider, config)
    requires AiClientFactory.MakeClient(providers, ClientName(provider, config)) == Ok(c)
    requires c.driver == Anthropic && Truthy(GetConfig(c, "api_key", Null))
    requires var ctx := world.getPost(id).value.context;
             var options := Options(MaxTokensOption(config, GetName(c)), ImageSource(ctx, config, world.head, world.disk));
             var req := AnthropicClient.Request(c, Build(ctx, config), options).value;
             world.send(req).Ok? && Walk(world.send(req).value, AnthropicClient.ReplyPath) == Some(Str(reply))
    ensures var ctx := world.getPost(id).value.context;
            var r := SuggestResult(config, providers, id, provider, world);
            && r.Ok?
            && r.value.suggestion == TruncateSuggestion(Trim(reply, DefaultTrim), config)
            && r.value.provider == ClientName(provider, config)
            && r.value.prompt == Build(ctx, config)
  {
    var ctx := world.getPost(id).value.context;
    var options := Options(MaxTokensOption(config, GetName(c)), ImageSource(ctx, config, world.head, world.disk));
    AnthropicReplies(c, Build(ctx, config), options, world.send, reply);
    SuggestFromReply(config, providers, id, provider, world, c, Trim(reply, DefaultTrim));
  }

  lemma AnthropicReplies(c: Client, prompt: string, options: Options, send: HttpRequest -> Outcome<Value>, reply: string)
    requires c.driver == Anthropic && Truthy(GetConfig(c, "api_key", Null))
    requires var req := AnthropicClient.Request(c, prompt, options).value;
             send(req).Ok? && Walk(send(req).value, AnthropicClient.ReplyPath) == Some(Str(reply))
    ensures AiClientFactory.Generate(c, prompt, options, send) == Ok(Trim(reply, DefaultTrim))
  {
    AnthropicClient.GenerateWithKey(c, prompt, options, send);
  }

  /** The manager, holding the plugin configuration and the client
      factory it resolves providers through. */
  class Manager {
    const config: Value
    const clients: AiClientFactory.ClientFactory

    constructor (clients: AiClientFactory.ClientFactory, config: Value)
      ensures this.clients == clients && this.config == config
    {
      this.clients := clients;
      this.config := config;
    }

    /** `suggest($attachmentId, $provider)`: the result is the one described
        above for the factory's configuration, and the factory's cache
        becomes `CacheAfter` of the old one. */
    method Suggest(id: int, provider: Option<string>, world: World) returns (r: Outcome<Suggestion>)
      requires clients.Valid()
      modifies clients
      ensures clients.Valid()
      ensures r == SuggestResult(config, clients.config, id, provider, world)
      ensures clients.clients == CacheAfter(old(clients.clients), clients.config, config, id, provider, world)
    {
      var post := world.getPost(id);
      if post.None? || post.value.postType != "attachment" {
        return Thrown(InvalidAttachment());
      }
      if NameIsArray(provider, config) {
        return Thrown(NameNotString());
      }
      var ctx := post.value.context;
      var client := clients.Driver(ClientName(provider, config));
      if client.Thrown? {
        return Thrown(client.error);
      }
      var prompt := Build(ctx, config);
      var image := ResolveImageSource(ctx, config, world.head, world.disk);
      var options := Options(MaxTokensOption(config, GetName(client.value)), image);
      var reply := AiClientFactory.Generate(client.value, prompt, options, world.send);
      if reply.Thrown? {
        return Thrown(reply.error);
      }
      r := Ok(Suggestion(TruncateSuggestion(reply.value, config), GetName(client.value), prompt, ImageMode(image)));
    }
  }
}
