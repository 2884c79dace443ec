/**
 * The `web_search` tool of pkg/ai/tools/web_search.go: its definition, the
 * `snippet` preview, the rule that turns a result's link into the URL to
 * fetch, and the handler that collects at most five result blocks.
 *
 * Query escaping and unescaping, and reading a parameter out of a query, are
 * net/url's own rules (module `UrlQuery`). The rest of what the handler reaches
 * through a library or the network is a field of `Web`: JSON decoding of the
 * arguments, the search page visit, splitting a URL into its parts, and
 * fetching a page.
 */
module WebSearch {
  import opened Bytes
  import opened Wrappers
  import opened OpenAI
  import opened UrlQuery

  const Name: Text := Ascii("web_search")
  const Description: Text := Ascii("Performs a web search ") + Ascii("and returns the results.")
  const QueryKey: Text := Ascii("query")
  const QueryProperty: Property :=
    Property(QueryKey, Ascii("string"), Ascii("The search query to perform."))

  /** `maxLinks`: at most this many result blocks. */
  const MaxLinks := 5

  /** The preview length handed to `snippet`. */
  const PreviewLimit := 500

  const SearchEndpoint: Text := Ascii("https://html.duckduckgo.com/html/?q=")
  const DuckDuckGoHost: Text := Ascii("duckduckgo.com")
  const RedirectPath: Text := Ascii("/l/")
  const Ellipsis: Text := Ascii("...")
  const UddgKey: Text := Ascii("uddg")

  /** The tool definition: one required string parameter, `query`. */
  function Definition(): (t: Tool)
    ensures t.kind == ToolTypeFunction && t.definition.name == Name
    ensures t.definition.parameters.properties == [QueryProperty]
    ensures t.definition.parameters.required == [QueryKey]
  {
    Tool(ToolTypeFunction,
         FunctionDefinition(Name, Description, Parameters(Ascii("object"), [QueryProperty], [QueryKey])))
  }

  /** `snippet(s, limit)`: the text itself when it fits, else its first `limit` bytes and "...". */
  function Snippet(s: Text, limit: nat): (r: Text)
    ensures |r| == if |s| > limit then limit + 3 else |s|
    ensures r[..Min(|s|, limit)] == s[..Min(|s|, limit)]
    ensures |s| > limit ==> r[limit..] == Ellipsis
  {
    if |s| > limit then s[..limit] + Ellipsis else s
  }

  /** Snippets of texts that fit are the identity. */
  lemma SnippetShort(s: Text, limit: nat)
    requires |s| <= limit
    ensures Snippet(s, limit) == s
  {
  }

  /** The parts of a parsed URL the handler looks at; `rawQuery` is still escaped. */
  datatype Url = Url(scheme: Text, host: Text, path: Text, rawQuery: Text)

  /** A decoded argument value: a JSON string, or anything else. */
  datatype Json = JString(s: Text) | JOther

  /** `json.Unmarshal` into a `map[string]interface{}`: an error, or the object's fields. */
  datatype Args = Malformed(err: Text) | Decoded(fields: map<Text, Json>)

  /** One `.result` element of the search page: the text and the `href` of its `a.result__a` link. */
  datatype Entry = Entry(title: Text, rawLink: Text)

  /** Visiting the search URL: `Visit` fails, or the page's result elements in document order. */
  datatype SearchPage = VisitFailed(err: Text) | Results(entries: seq<Entry>)

  /** Fetching a page: `http.Get` fails, readability fails, or the article's title and text. */
  datatype Page = FetchFailed(err: Text) | Unreadable(err: Text) | Article(title: Text, text: Text)

  datatype Web = Web(
    decode: Text -> Args,                // json.Unmarshal
    visit: Text -> SearchPage,           // the colly collector's visit
    parse: Text -> Option<Url>,          // url.Parse
    fetch: Text -> Page)                 // http.Get + readability.FromReader

  /** A DuckDuckGo redirect: host `duckduckgo.com`, path `/l/`. */
  predicate IsRedirect(u: Option<Url>) {
    u.Some? && u.value.host == DuckDuckGoHost && u.value.path == RedirectPath
  }

  /**
   * The URL a result entry leads to; `""` means the entry is skipped. For a
   * redirect the `uddg` parameter is decoded by `Query().Get` and then once more
   * by `url.QueryUnescape`, whose failure leaves the once-decoded value.
   */
  function ResolveLink(web: Web, rawLink: Text): (link: Text)
    ensures !IsRedirect(web.parse(rawLink)) ==> link == rawLink
    ensures IsRedirect(web.parse(rawLink)) ==>
      var uddg := Get(web.parse(rawLink).value.rawQuery, UddgKey);
      link == (if Unescape(uddg).Some? then Unescape(uddg).value else uddg)
  {
    var parsed := web.parse(rawLink);
    if IsRedirect(parsed) then
      var uddg := Get(parsed.value.rawQuery, UddgKey);
      match Unescape(uddg)
      case Some(unescaped) => unescaped
      case None => uddg
    else if parsed.Some? && parsed.value.scheme != [] && parsed.value.host != [] then rawLink
    else if rawLink != [] then rawLink
    else []
  }

  /**
   * A DuckDuckGo redirect whose query starts with `uddg=` and the target escaped
   * once resolves to the target decoded a second time: the target itself only
   * when that second decoding fails or changes nothing.
   */
  lemma DecodesTwice(web: Web, rawLink: Text, target: Text, rest: Text)
    requires IsRedirect(web.parse(rawLink))
    requires web.parse(rawLink).value.rawQuery == UddgKey + [Equals] + Escape(target) + rest
    requires rest == [] || rest[0] == Amp
    ensures ResolveLink(web, rawLink) == (if Unescape(target).Some? then Unescape(target).value else target)
    ensures ResolveLink(web, rawLink) == target <==> Unescape(target).None? || Unescape(target) == Some(target)
  {
    GetFirst(UddgKey, target, rest);
  }

  /** Targets with no `%` and no `+` survive the redirect unchanged. */
  lemma UnwrapsRedirect(web: Web, rawLink: Text, target: Text, rest: Text)
    requires IsRedirect(web.parse(rawLink))
    requires web.parse(rawLink).value.rawQuery == UddgKey + [Equals] + Escape(target) + rest
    requires rest == [] || rest[0] == Amp
    requires forall k :: 0 <= k < |target| ==> target[k] != Percent && target[k] != Plus
    ensures ResolveLink(web, rawLink) == target
  {
    DecodesTwice(web, rawLink, target, rest);
    UnescapePlain(target);
  }

  /** A target holding `+` comes back with a space: "a+b" is sent as "a%2Bb" and resolves to "a b". */
  lemma PlusBecomesSpace(web: Web, rawLink: Text)
    requires IsRedirect(web.parse(rawLink))
    requires web.parse(rawLink).value.rawQuery == UddgKey + [Equals] + Escape([97, Plus, 98])
    ensures ResolveLink(web, rawLink) == [97, Space, 98]
  {
    var t: Text := [97, Plus, 98];
    assert web.parse(rawLink).value.rawQuery == UddgKey + [Equals] + Escape(t) + [];
    DecodesTwice(web, rawLink, t, []);
    PlusDecodesToSpace();
  }

  lemma PlusDecodesToSpace()
    ensures Unescape([97, Plus, 98]) == Some([97, Space, 98])
  {
    var t: Text := [97, Plus, 98];
    var b: Text := [98];
    var e: Text := [];
    assert b[1..] == e;
    assert Unescape(e) == Some(e);
    assert b[0] != Percent && b[0] != Plus;
    assert [b[0]] + e == b;
    assert Unescape(b) == Cons(b[0], Unescape(b[1..]));
    assert Unescape(b) == Some(b);
    assert t[1..] == [Plus] + b;
    assert ([Plus] + b)[1..] == b;
    assert Unescape(t[1..]) == Cons(Space, Unescape(b));
    assert Unescape(t[1..]) == Some([Space] + b);
    assert t[0] != Percent && t[0] != Plus;
    assert Unescape(t) == Cons(t[0], Unescape(t[1..]));
    assert [t[0]] + ([Space] + b) == [97, Space, 98];
  }

  const FetchNote: Text := Ascii("Failed to fetch: ")
  const ParseNote: Text := Ascii("Failed to parse readable content: ")

  /**
   * `extractMainContent`: the article's title, a blank line and its text; or,
   * when a step fails, a note naming the step followed by the error.
   */
  function MainContent(page: Page): (t: Text)
    ensures page.FetchFailed? ==>
      |t| == |FetchNote| + |page.err| && t[..|FetchNote|] == FetchNote && t[|FetchNote|..] == page.err
    ensures page.Unreadable? ==>
      |t| == |ParseNote| + |page.err| && t[..|ParseNote|] == ParseNote && t[|ParseNote|..] == page.err
    ensures page.Article? ==>
      var n := |page.title|;
      |t| == n + 2 + |page.text| && t[..n] == page.title && t[n..n + 2] == [Newline, Newline] && t[n + 2..] == page.text
  {
    match page
    case FetchFailed(err) => FetchNote + err
    case Unreadable(err) => ParseNote + err
    case Article(title, text) => title + [Newline, Newline] + text
  }

  datatype Block = Block(title: Text, url: Text, preview: Text)

  const TitleLabel: Text := Ascii("Title: ")
  const UrlLabel: Text := Ascii("\nURL: ")
  const PreviewLabel: Text := Ascii("\nContent Preview: ")

  /** One result block: "Title: …\nURL: …\nContent Preview: …\n\n". */
  function Render(b: Block): (t: Text)
    ensures |t| == |b.title| + |b.url| + |b.preview| + 33
  {
    TitleLabel + b.title + UrlLabel + b.url + PreviewLabel + b.preview + [Newline, Newline]
  }

  /** Each field of a block sits after its label at a fixed offset, so a block can be read back. */
  lemma RenderLayout(b: Block)
    ensures var t := Render(b);
      var a := 7 + |b.title|; var u := a + 6 + |b.url|; var p := u + 18 + |b.preview|;
      t[..7] == TitleLabel && t[7..a] == b.title && t[a..a + 6] == UrlLabel && t[a + 6..u] == b.url
      && t[u..u + 18] == PreviewLabel && t[u + 18..p] == b.preview && t[p..] == [Newline, Newline]
  {
  }

  /** The handler's `results`: the blocks one after another; empty exactly when there are none. */
  function RenderAll(bs: seq<Block>): (r: Text)
    ensures r == [] <==> bs == []
    ensures |r| >= 33 * |bs|
  {
    if bs == [] then [] else RenderAll(bs[..|bs| - 1]) + Render(bs[|bs| - 1])
  }

  /** The block an entry contributes when its link resolves to a non-empty URL. */
  function BlockOf(web: Web, e: Entry): Option<Block> {
    var link := ResolveLink(web, e.rawLink);
    if link == [] then None
    else Some(Block(e.title, link, Snippet(MainContent(web.fetch(link)), PreviewLimit)))
  }

  /**
   * The blocks the result callback has appended after seeing `entries`, in order:
   * each entry adds its block unless five are already there or its link is empty.
   */
  function Collect(web: Web, entries: seq<Entry>): (bs: seq<Block>)
    ensures |bs| <= MaxLinks
    ensures forall b :: b in bs ==> b.url != [] && |b.preview| <= PreviewLimit + 3
  {
    if entries == [] then []
    else
      var bs := Collect(web, entries[..|entries| - 1]);
      var block := BlockOf(web, entries[|entries| - 1]);
      if |bs| >= MaxLinks || block.None? then bs else bs + [block.value]
  }

  /** Reference: the block of every entry whose link resolves, with no cap. */
  function Usable(web: Web, entries: seq<Entry>): seq<Block> {
    if entries == [] then [] else Contribution(web, entries[0]) + Usable(web, entries[1..])
  }

  /** The block of one entry, as a list of zero or one. */
  function Contribution(web: Web, e: Entry): seq<Block> {
    var block := BlockOf(web, e);
    if block.Some? then [block.value] else []
  }

  lemma {:induction false} UsableAppend(web: Web, entries: seq<Entry>, e: Entry)
    ensures Usable(web, entries + [e]) == Usable(web, entries) + Usable(web, [e])
    decreases |entries|
  {
    if entries != [] {
      var all := entries + [e];
      assert all[0] == entries[0];
      assert all[1..] == entries[1..] + [e];
      UsableAppend(web, entries[1..], e);
      calc {
        Usable(web, all);
        Contribution(web, entries[0]) + Usable(web, entries[1..] + [e]);
        Contribution(web, entries[0]) + (Usable(web, entries[1..]) + Usable(web, [e]));
        (Contribution(web, entries[0]) + Usable(web, entries[1..])) + Usable(web, [e]);
      }
    } else {
      assert entries + [e] == [e];
    }
  }

  /** The callback keeps exactly the first five usable results, in page order. */
  lemma {:induction false} CollectKeepsFirstFive(web: Web, entries: seq<Entry>)
    ensures Collect(web, entries) == Usable(web, entries)[..Min(MaxLinks, |Usable(web, entries)|)]
    decreases |entries|
  {
    if entries != [] {
      var init, e := entries[..|entries| - 1], entries[|entries| - 1];
      assert entries == init + [e];
      CollectKeepsFirstFive(web, init);
      UsableAppend(web, init, e);
      UsableSingle(web, e);
      CapStep(Usable(web, init), Contribution(web, e));
    }
  }

  lemma UsableSingle(web: Web, e: Entry)
    ensures Usable(web, [e]) == Contribution(web, e)
  {
    assert [e][1..] == [];
  }

  /** Capping at five after appending at most one block. */
  lemma CapStep(us: seq<Block>, extra: seq<Block>)
    requires |extra| <= 1
    ensures var capped := us[..Min(MaxLinks, |us|)];
      (us + extra)[..Min(MaxLinks, |us + extra|)]
      == if |capped| >= MaxLinks || extra == [] then capped else capped + extra
  {
    if extra != [] && |us| < MaxLinks {
      assert us[..|us|] == us;
      assert (us + extra)[..|us| + 1] == us + extra;
    }
  }

  /** What the handler returns for a call, given everything it reaches outside. */
  function Answer(call: ToolCall, web: Web): (r: ToolResult)
    ensures call.name != Name ==> r == ToolResult([], None)
  {
    if call.name != Name then ToolResult([], None)
    else
      match web.decode(call.arguments)
      case Malformed(err) => ToolResult([], Some(err))
      case Decoded(args) =>
        if QueryKey !in args || !args[QueryKey].JString? then ToolResult([], None)
        else
          match web.visit(SearchEndpoint + Escape(args[QueryKey].s))
          case VisitFailed(err) => ToolResult([], Some(err))
          case Results(entries) => ToolResult(RenderAll(Collect(web, entries)), None)
  }

  /**
   * The handler's gates: a foreign name is declined without touching anything,
   * malformed arguments are an error, a missing or non-string `query` is
   * declined, and a search page that cannot be visited is an error.
   */
  lemma Gates(call: ToolCall, web: Web)
    ensures call.name != Name ==> Answer(call, web) == ToolResult([], None)
    ensures call.name == Name && web.decode(call.arguments).Malformed? ==>
      Answer(call, web) == ToolResult([], Some(web.decode(call.arguments).err))
    ensures (call.name == Name && web.decode(call.arguments).Decoded?
             && (QueryKey !in web.decode(call.arguments).fields
                 || !web.decode(call.arguments).fields[QueryKey].JString?)) ==>
      Answer(call, web) == ToolResult([], None)
    ensures (call.name == Name && web.decode(call.arguments).Decoded?
             && QueryKey in web.decode(call.arguments).fields
             && web.decode(call.arguments).fields[QueryKey].JString?
             && web.visit(SearchEndpoint + Escape(web.decode(call.arguments).fields[QueryKey].s)).VisitFailed?) ==>
      Answer(call, web) == ToolResult([], Some(web.visit(SearchEndpoint + Escape(web.decode(call.arguments).fields[QueryKey].s)).err))
  {
  }

  /**
   * Once the gates pass and the page is visited, the output is `""` exactly when
   * no result on the page has a usable link: an empty search looks the same as a
   * declined call.
   */
  lemma EmptyMeansNoResults(call: ToolCall, web: Web)
    requires call.name == Name && web.decode(call.arguments).Decoded?
    requires QueryKey in web.decode(call.arguments).fields && web.decode(call.arguments).fields[QueryKey].JString?
    requires web.visit(SearchEndpoint + Escape(web.decode(call.arguments).fields[QueryKey].s)).Results?
    ensures var entries := web.visit(SearchEndpoint + Escape(web.decode(call.arguments).fields[QueryKey].s)).entries;
      Answer(call, web) == ToolResult(RenderAll(Collect(web, entries)), None)
      && (Answer(call, web).out == [] <==> Usable(web, entries) == [])
  {
    var entries := web.visit(SearchEndpoint + Escape(web.decode(call.arguments).fields[QueryKey].s)).entries;
    CollectKeepsFirstFive(web, entries);
  }

  /** What the callback does with entry `i`, given the blocks collected before it. */
  lemma CollectStep(web: Web, entries: seq<Entry>, i: nat)
    requires i < |entries|
    ensures var bs := Collect(web, entries[..i]); var link := ResolveLink(web, entries[i].rawLink);
      Collect(web, entries[..i + 1])
      == if |bs| >= MaxLinks || link == [] then bs
         else bs + [Block(entries[i].title, link, Snippet(MainContent(web.fetch(link)), PreviewLimit))]
  {
    assert entries[..i + 1][..i] == entries[..i];
    assert entries[..i + 1][i] == entries[i];
  }

  lemma RenderAllSnoc(bs: seq<Block>, b: Block)
    ensures RenderAll(bs + [b]) == RenderAll(bs) + Render(b)
  {
    assert (bs + [b])[..|bs|] == bs;
  }

  /**
   * The `OnHTML(".result", …)` callback run over the page's entries in order:
   * until five blocks have been appended, resolve the entry's link, skip it when
   * empty, otherwise append its block and count it in `visited`.
   */
  method OnResults(web: Web, entries: seq<Entry>) returns (results: Text, visited: nat)
    ensures visited == |Collect(web, entries)| <= MaxLinks
    ensures results == RenderAll(Collect(web, entries))
  {
    results, visited := [], 0;
    for i := 0 to |entries|
      invariant visited == |Collect(web, entries[..i])|
      invariant results == RenderAll(Collect(web, entries[..i]))
    {
      CollectStep(web, entries, i);
      if visited < MaxLinks {
        var rawLink := entries[i].rawLink;
        var title := entries[i].title;
        var finalUrl := ResolveLink(web, rawLink);
        if finalUrl != [] {
          var mainText := MainContent(web.fetch(finalUrl));
          var block := Block(title, finalUrl, Snippet(mainText, PreviewLimit));
          RenderAllSnoc(Collect(web, entries[..i]), block);
          results := results + Render(block);
          visited := visited + 1;
        }
      }
    }
    assert entries[..|entries|] == entries;
  }

  /** `Handle`: the name and argument gates, the search page visit, then the result callback. */
  method Handle(call: ToolCall, web: Web) returns (out: Text, err: Option<Text>)
    ensures ToolResult(out, err) == Answer(call, web)
  {
    if call.name != Name {
      return [], None;
    }
    var args := web.decode(call.arguments);
    if args.Malformed? {
      return [], Some(args.err);
    }
    if QueryKey !in args.fields || !args.fields[QueryKey].JString? {
      return [], None;
    }
    var query := args.fields[QueryKey].s;
    var searchUrl := SearchEndpoint + Escape(query);
    var page := web.visit(searchUrl);
    if page.VisitFailed? {
      return [], Some(page.err);
    }
    var results, _ := OnResults(web, page.entries);
    return results, None;
  }
}
