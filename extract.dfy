/** Reading one forum post out of the page (src/main.rs:69-170): the post id,
    its timestamp, the author's name, profile link and avatar, the message
    text and its derived title, and the codepoint truncation applied before
    a message is sent. */
module Extract {
  import opened Types
  import opened Numerals
  import opened Dom

  /** The forum's origin; profile and avatar links on the page are relative to it. */
  const ORIGIN: string := "https://bbs.io-tech.fi"
  /** The thread's address without its page segment. */
  const THREAD_URL: string := "https://bbs.io-tech.fi/threads/151"
  /** A message that names a product starts with this marker. */
  const TITLE_MARKER: string := "Tuote:"
  /** The title of a message without the marker ("new offer"). */
  const DEFAULT_TITLE: string := "Uusi tarjous"

  /** One `.message` element, with the first element each selector the program
      uses finds inside it: `.u-dt`, `.username`, `.avatar img`, `.bbWrapper`. */
  datatype PostElement = PostElement(
    attrs: map<string, string>,
    time: Option<ElementNode>,
    username: Option<ElementNode>,
    avatar: Option<ElementNode>,
    body: Option<ElementNode>)

  /** `get_page_url`. */
  function PageUrl(page: U32): (u: string)
    ensures StartsWith(u, THREAD_URL + "/page-")
    ensures |u| > |THREAD_URL + "/page-"| && AllDigits(u[|THREAD_URL + "/page-"|..])
  {
    THREAD_URL + "/page-" + Decimal(page)
  }

  /** `get_post_id`: the `data-content` attribute must be "post-" followed by
      a `u32` numeral; anything else is a scraping error. */
  function GetPostId(p: PostElement): (r: Result<U32>)
    ensures r.Err? ==> r.error == Scraping
    ensures r.Ok? ==> "data-content" in p.attrs && StartsWith(p.attrs["data-content"], "post-")
  {
    var marker :- OkOr(Attr(Element("", p.attrs, []), "data-content"), Scraping);
    var digits :- OkOr(if StartsWith(marker, "post-") then Some(marker[5..]) else None, Scraping);
    OkOr(ParseU32(digits), Scraping)
  }

  /** A post id is read back from the marker `"post-" + Decimal(n)`, and a
      marker gives id `v` exactly when its tail is a numeral of `v`. */
  lemma PostIdOfMarker(p: PostElement, v: nat)
    ensures GetPostId(p) == Ok(v) <==>
      (&& "data-content" in p.attrs
       && StartsWith(p.attrs["data-content"], "post-")
       && ParseU32(p.attrs["data-content"][5..]) == Some(v))
    ensures "data-content" in p.attrs && v <= U32_MAX && p.attrs["data-content"] == "post-" + Decimal(v)
      ==> GetPostId(p) == Ok(v)
  {
    if "data-content" in p.attrs && v <= U32_MAX && p.attrs["data-content"] == "post-" + Decimal(v) {
      assert p.attrs["data-content"][5..] == Decimal(v);
      ParseDecimal(v);
    }
  }

  /** The page number is the last path segment of the redirect target, of the
      form "page-" followed by a `u32` numeral (src/main.rs:210-219). */
  function ResolvePage(segments: Option<seq<string>>): (r: Result<U32>)
    ensures r.Err? ==> r.error == Scraping
    ensures r.Ok? ==>
      (&& segments.Some? && |segments.value| > 0
       && StartsWith(segments.value[|segments.value| - 1], "page-")
       && ParseU32(segments.value[|segments.value| - 1][5..]) == Some(r.value))
    ensures (&& segments.Some? && |segments.value| > 0
             && StartsWith(segments.value[|segments.value| - 1], "page-")
             && ParseU32(segments.value[|segments.value| - 1][5..]).Some?) ==> r.Ok?
  {
    var segs :- OkOr(segments, Scraping);
    var last :- OkOr(if segs == [] then None else Some(segs[|segs| - 1]), Scraping);
    var digits :- OkOr(if StartsWith(last, "page-") then Some(last[5..]) else None, Scraping);
    OkOr(ParseU32(digits), Scraping)
  }

  /** What follows the thread path in `PageUrl(n)` is a single path segment
      (it holds no '/'), and reading the page number from the thread path
      ending in that segment recovers `n`. */
  lemma ResolvePageUrl(n: U32)
    ensures var last := PageUrl(n)[|THREAD_URL| + 1..];
      && PageUrl(n) == THREAD_URL + "/" + last
      && '/' !in last
      && ResolvePage(Some(["threads", "151", last])) == Ok(n)
  {
    var last := PageUrl(n)[|THREAD_URL| + 1..];
    assert last == "page-" + Decimal(n);
    assert PageUrl(n) == THREAD_URL + "/" + last;
    assert forall i :: 0 <= i < |Decimal(n)| ==> IsDigit(Decimal(n)[i]);
    assert forall i :: 0 <= i < |last| ==> last[i] != '/' by {
      forall i | 0 <= i < |last| ensures last[i] != '/' {
        if i >= 5 {
          assert last[i] == Decimal(n)[i - 5];
        }
      }
    }
    assert last[5..] == Decimal(n);
    ParseDecimal(n);
  }

  /** `get_timestamp`: the `datetime` attribute of the first `.u-dt`. */
  function GetTimestamp(p: PostElement): (r: Result<string>)
    ensures r.Ok? <==> p.time.Some? && "datetime" in p.time.value.attrs
    ensures r.Ok? ==> r.value == p.time.value.attrs["datetime"]
    ensures r.Err? ==> r.error == Scraping
  {
    var time :- OkOr(p.time, Scraping);
    OkOr(Attr(time, "datetime"), Scraping)
  }

  /** `get_username_element`: the first `.username`, which must exist. */
  function GetUsernameElement(p: PostElement): (r: Result<ElementNode>)
    ensures r.Ok? <==> p.username.Some?
    ensures r.Ok? ==> r.value == p.username.value
    ensures r.Err? ==> r.error == Scraping
  {
    OkOr(p.username, Scraping)
  }

  /** `get_username_str`: the first text below the username element. */
  function GetUsernameStr(e: ElementNode): (r: Result<string>)
    ensures r.Ok? <==> TextsOf(e.children) != []
    ensures r.Ok? ==> r.value == TextsOf(e.children)[0]
    ensures r.Err? ==> r.error == Scraping
  {
    FirstTextIsHeadOfTexts(e.children);
    OkOr(FirstText(e), Scraping)
  }

  /** `get_user_url`: the origin followed by the element's raw `href`. */
  function GetUserUrl(e: ElementNode): (r: Result<string>)
    ensures r.Ok? <==> "href" in e.attrs
    ensures r.Ok? ==> r.value == ORIGIN + e.attrs["href"]
    ensures r.Err? ==> r.error == Scraping
  {
    var href :- OkOr(Attr(e, "href"), Scraping);
    Ok(ORIGIN + href)
  }

  /** `get_avatar_url`: no avatar element is not an error; an avatar element
      without `src` is. */
  function GetAvatarUrl(p: PostElement): (r: Result<Option<string>>)
    ensures p.avatar.None? ==> r == Ok(None)
    ensures p.avatar.Some? && "src" !in p.avatar.value.attrs ==> r == Err(Scraping)
    ensures p.avatar.Some? && "src" in p.avatar.value.attrs ==>
      r == Ok(Some(ORIGIN + p.avatar.value.attrs["src"]))
  {
    match p.avatar
    case None => Ok(None)
    case Some(img) =>
      var src :- OkOr(Attr(img, "src"), Scraping);
      Ok(Some(ORIGIN + src))
  }

  /** What one child of the message body contributes to its text. */
  function Contribution(n: Node): string {
    match n
    case Text(t) => t
    case Element(name, attrs, cs) =>
      if name == "br" then "\n"
      else if name == "a" then (if "href" in attrs then attrs["href"] else "")
      else FirstTextIn(cs).GetOr("")
    case Other => ""
  }

  /** The contributions of `cs`, concatenated in order (`collect` into a `String`). */
  function Content(cs: seq<Node>): string {
    if cs == [] then "" else Contribution(cs[0]) + Content(cs[1..])
  }

  /** `get_content`: the text of the first `.bbWrapper`, which must exist. */
  function GetContent(p: PostElement): (r: Result<string>)
    ensures r.Err? <==> p.body.None?
    ensures r.Err? ==> r.error == Scraping
    ensures r.Ok? ==> r.value == Content(p.body.value.children)
  {
    var body :- OkOr(p.body, Scraping);
    Ok(Content(body.children))
  }

  /** The text of a body is the text of its first children followed by the
      text of the rest: the walk is a concatenation in child order. */
  lemma {:induction false} ContentAppend(a: seq<Node>, b: seq<Node>)
    ensures Content(a + b) == Content(a) + Content(b)
  {
    if a != [] {
      assert (a + b)[0] == a[0] && (a + b)[1..] == a[1..] + b;
      ContentAppend(a[1..], b);
    } else {
      assert a + b == b;
    }
  }

  /** The rule for a single child: text verbatim, `br` a newline, `a` its
      `href` or nothing, any other element only the first item of its text
      (not its whole text), any other node nothing. */
  lemma ContentOfChild(c: Node)
    ensures c.Text? ==> Content([c]) == c.text
    ensures c.Element? && c.name == "br" ==> Content([c]) == "\n"
    ensures c.Element? && c.name == "a" && "href" in c.attrs ==> Content([c]) == c.attrs["href"]
    ensures c.Element? && c.name == "a" && "href" !in c.attrs ==> Content([c]) == ""
    ensures c.Element? && c.name != "br" && c.name != "a" ==>
      Content([c]) == (if TextsOf(c.children) == [] then "" else TextsOf(c.children)[0])
    ensures c.Other? ==> Content([c]) == ""
  {
    if c.Element? {
      FirstTextIsHeadOfTexts(c.children);
    }
  }

  /** `split('\n').next()`: the text before the first newline. */
  function FirstLine(s: string): (r: string)
    ensures '\n' !in r
    ensures StartsWith(s, r)
    ensures |r| < |s| ==> s[|r|] == '\n'
  {
    if s == [] || s[0] == '\n' then [] else [s[0]] + FirstLine(s[1..])
  }

  /** `get_title`: after the marker, the rest of the first line (possibly
      empty); without the marker, the first line of the default. */
  function GetTitle(content: string, default: string): (t: string)
    ensures '\n' !in t
  {
    FirstLine(if StartsWith(content, TITLE_MARKER) then content[|TITLE_MARKER|..] else default)
  }

  /** The first line is the only newline-free prefix that ends the text or is
      followed by a newline. */
  lemma FirstLineUnique(s: string, r: string)
    requires '\n' !in r && StartsWith(s, r) && (|r| == |s| || s[|r|] == '\n')
    ensures FirstLine(s) == r
  {
  }

  /** A message "Tuote:" + t + rest, with `t` a line and `rest` empty or a new
      line, has title `t`; without the marker the title is the default. */
  lemma TitleRules(t: string, rest: string, content: string)
    requires '\n' !in t && (rest == [] || rest[0] == '\n')
    ensures GetTitle(TITLE_MARKER + t + rest, DEFAULT_TITLE) == t
    ensures !StartsWith(content, TITLE_MARKER) ==> GetTitle(content, DEFAULT_TITLE) == DEFAULT_TITLE
  {
    var c := TITLE_MARKER + t + rest;
    assert StartsWith(c, TITLE_MARKER);
    assert c[|TITLE_MARKER|..] == t + rest;
    FirstLineUnique(t + rest, t);
    FirstLineUnique(DEFAULT_TITLE, DEFAULT_TITLE);
  }

  /** `truncate`: at most `n` codepoints, always a prefix of the input. */
  function Truncate(s: string, n: nat): (r: string)
    ensures |r| == if |s| <= n then |s| else n
    ensures StartsWith(s, r)
  {
    if |s| <= n then s else s[..n]
  }

  /** Truncation keeps what was within the budget and is idempotent. */
  lemma TruncateProperties(s: string, n: nat)
    ensures |s| <= n ==> Truncate(s, n) == s
    ensures Truncate(Truncate(s, n), n) == Truncate(s, n)
  {
  }
}
