/** The incremental crawl (`run`, src/main.rs:181-293): load the cursor, then
    page by page fetch the thread, deliver every post newer than the stored
    watermark, follow the next-page link, and finally persist the page and
    watermark. The network is replaced by two oracles: `fetch` maps the page
    number requested to the response (or `None` for a transport or status
    error), and `deliver` maps the number of the delivery attempt to whether
    the webhook accepted it.

    The behaviour is the code's, including where it departs from a tidier
    design: new posts are compared with the watermark as loaded, the
    running watermark restarts from the loaded value on every page, a page
    number of `u32::MAX` always means "ask for the latest page", and any
    error ends the run without writing the cursor. */
module Crawl {
  import opened Types
  import opened Numerals
  import opened Dom
  import opened Extract
  import opened CursorStore
  import opened Webhook

  const NAME_BUDGET: nat := 256
  const TITLE_BUDGET: nat := 256
  const DESCRIPTION_BUDGET: nat := 2048

  /** A parsed thread page: its `.message` elements in document order and the
      first element after the current-page marker in the page navigation. */
  datatype Document = Document(posts: seq<PostElement>, nextPage: Option<ElementNode>)

  /** A successful response: the path segments of the final (redirected) URL,
      `None` for a URL that cannot be a base, and the body, `None` when
      reading it fails. */
  datatype Response = Response(pathSegments: Option<seq<string>>, body: Option<Document>)

  /** One webhook execution that succeeded: the post it announces, the
      webhook URL and the payload. */
  datatype Notification = Notification(id: U32, url: string, payload: ExecuteWebhook)

  /** How a run ends: the cursor written (page and watermark), an error that
      stops the run before anything is written, or the model's page budget
      used up while the program would still be following links. */
  datatype Outcome = Saved(page: U32, lastId: U32) | Fatal(error: Error) | OutOfFuel

  /** Everything a run did: the notifications delivered (also when it later
      fails) and how it ended. */
  datatype RunResult = RunResult(sent: seq<Notification>, outcome: Outcome)

  /** The embed built for a new post (src/main.rs:235-258), or the scraping
      error one of the extractors reports. */
  function PostEmbed(p: PostElement): (r: Result<Embed>)
    ensures r.Err? ==> r.error == Scraping
  {
    var timestamp :- GetTimestamp(p);
    var usernameElement :- GetUsernameElement(p);
    var username :- GetUsernameStr(usernameElement);
    var userUrl :- GetUserUrl(usernameElement);
    var avatarUrl :- GetAvatarUrl(p);
    var content :- GetContent(p);
    var title := GetTitle(content, DEFAULT_TITLE);
    Ok(EMPTY_EMBED
      .(timestamp := Some(timestamp))
      .(author := Some(EmbedAuthor(Some(Truncate(username, NAME_BUDGET)), Some(userUrl), avatarUrl)))
      .(description := Some(Truncate(content, DESCRIPTION_BUDGET)))
      .(title := Some(Truncate(title, TITLE_BUDGET))))
  }

  /** The payload `send_message` posts: one embed and nothing else. */
  function Payload(e: Embed): (x: ExecuteWebhook)
    ensures x.embeds == [e] && x.(embeds := []) == EMPTY_PAYLOAD
  {
    EMPTY_PAYLOAD.(embeds := [e])
  }

  datatype Status = Scanning | DeliveryFailed | Fault(error: Error)

  /** The state of the `for post in posts` loop: notifications sent so far in
      the run, delivery attempts made, `last_id_temp`, and whether the loop
      goes on, stopped at a failed delivery, or hit an error. */
  datatype Scan = Scan(sent: seq<Notification>, attempts: nat, lastIdTemp: U32, status: Status)

  /** One iteration of the post loop against watermark `w` (src/main.rs:231-266). */
  function ScanPost(st: Scan, p: PostElement, w: U32, url: string, deliver: nat -> bool): Scan
    requires st.status.Scanning?
  {
    match GetPostId(p)
    case Err(e) => st.(status := Fault(e))
    case Ok(id) =>
      if id <= w then st
      else
        match PostEmbed(p)
        case Err(e) => st.(status := Fault(e))
        case Ok(embed) =>
          if deliver(st.attempts) then
            Scan(st.sent + [Notification(id, url, Payload(embed))], st.attempts + 1, id, Scanning)
          else
            st.(attempts := st.attempts + 1, status := DeliveryFailed)
  }

  /** The post loop over `posts`, stopping at the first failure or error. */
  function ScanPosts(posts: seq<PostElement>, w: U32, url: string, deliver: nat -> bool, st: Scan): Scan
    decreases |posts|
  {
    if posts == [] || !st.status.Scanning? then st
    else ScanPosts(posts[1..], w, url, deliver, ScanPost(st, posts[0], w, url, deliver))
  }

  /** `last_id` of a baseline page: the id of its last post (src/main.rs:271). */
  function LastPostId(posts: seq<PostElement>): (r: Result<U32>)
    ensures posts == [] ==> r == Err(Scraping)
  {
    if posts == [] then Err(Scraping) else GetPostId(posts[|posts| - 1])
  }

  /** The next page number: none without a link, a scraping error for a link
      without text or whose text is not a numeral (src/main.rs:275-281). */
  function NextPageNumber(link: Option<ElementNode>): (r: Result<Option<U32>>)
    ensures link.None? ==> r == Ok(None)
    ensures r.Err? ==> r.error == Scraping
    ensures r.Ok? && r.value.Some? ==>
      link.Some? && FirstText(link.value).Some? && ParseU32(FirstText(link.value).value) == r.value
    ensures link.Some? ==> (r.Ok? <==> FirstText(link.value).Some? && ParseU32(FirstText(link.value).value).Some?)
    ensures link.Some? && r.Ok? ==> r.value.Some?
  {
    match link
    case None => Ok(None)
    case Some(e) =>
      var text :- OkOr(FirstText(e), Scraping);
      var n :- OkOr(ParseU32(text), Scraping);
      Ok(Some(n))
  }

  /** Where the loop goes after a page. */
  datatype Step = Next(page: U32) | Stop(page: U32, lastId: U32) | Abort(error: Error)

  /** A visited page: the run's notifications and attempts so far, and the step. */
  datatype Visit = Visit(sent: seq<Notification>, attempts: nat, step: Step)

  /** src/main.rs:274-286: a failed delivery stops at this page without looking
      for a next page; otherwise the next-page link decides. */
  function Advance(page: U32, lastId: U32, failed: bool, link: Option<ElementNode>): Step {
    if failed then Stop(page, lastId)
    else
      match NextPageNumber(link)
      case Err(e) => Abort(e)
      case Ok(None) => Stop(page, lastId)
      case Ok(Some(n)) => Next(n)
  }

  /** The page number a response stands for: the one requested, unless that
      is `u32::MAX`, which is read from the redirect target (src/main.rs:208-220). */
  function ResolvedPage(page: U32, response: Response): (r: Result<U32>)
    ensures page != U32_MAX ==> r == Ok(page)
    ensures page == U32_MAX ==> r == ResolvePage(response.pathSegments)
  {
    if page == U32_MAX then ResolvePage(response.pathSegments) else Ok(page)
  }

  /** One iteration of the outer `loop` (src/main.rs:203-286). */
  function VisitPage(page: U32, w: Option<U32>, url: string, fetch: U32 -> Option<Response>,
                     deliver: nat -> bool, sent: seq<Notification>, attempts: nat): Visit
  {
    match fetch(page)
    case None => Visit(sent, attempts, Abort(Reqwest))
    case Some(response) =>
      var resolved := ResolvedPage(page, response);
      if resolved.Err? then Visit(sent, attempts, Abort(resolved.error))
      else
        match response.body
        case None => Visit(sent, attempts, Abort(Reqwest))
        case Some(doc) =>
          match w
          case Some(lastSentId) =>
            var st := ScanPosts(doc.posts, lastSentId, url, deliver, Scan(sent, attempts, lastSentId, Scanning));
            if st.status.Fault? then Visit(st.sent, st.attempts, Abort(st.status.error))
            else Visit(st.sent, st.attempts, Advance(resolved.value, st.lastIdTemp, st.status.DeliveryFailed?, doc.nextPage))
          case None =>
            match LastPostId(doc.posts)
            case Err(e) => Visit(sent, attempts, Abort(e))
            case Ok(id) => Visit(sent, attempts, Advance(resolved.value, id, false, doc.nextPage))
  }

  /** The outer loop from `page`, visiting at most `fuel` pages. */
  function CrawlPages(fuel: nat, page: U32, w: Option<U32>, url: string, fetch: U32 -> Option<Response>,
                      deliver: nat -> bool, sent: seq<Notification>, attempts: nat): RunResult
    decreases 2 * fuel
  {
    if fuel == 0 then RunResult(sent, OutOfFuel)
    else AfterVisit(fuel - 1, VisitPage(page, w, url, fetch, deliver, sent, attempts), w, url, fetch, deliver)
  }

  /** The rest of the run once a page has been visited, with `fuel` pages left. */
  function AfterVisit(fuel: nat, v: Visit, w: Option<U32>, url: string, fetch: U32 -> Option<Response>,
                      deliver: nat -> bool): RunResult
    decreases 2 * fuel + 1
  {
    match v.step
    case Next(n) => CrawlPages(fuel, n, w, url, fetch, deliver, v.sent, v.attempts)
    case Stop(p, l) => RunResult(v.sent, Saved(p, l))
    case Abort(e) => RunResult(v.sent, Fatal(e))
  }

  /** A whole run: load the cursor (an unset page becomes `u32::MAX`, the
      "latest page" request), read the webhook URL (`None`: an I/O error),
      then crawl. */
  function RunOf(store: Store, webhookUrl: Option<string>, fetch: U32 -> Option<Response>,
                 deliver: nat -> bool, fuel: nat): RunResult
  {
    match GetLastPage(store)
    case Err(e) => RunResult([], Fatal(e))
    case Ok(storedPage) =>
      match GetLastSentPost(store)
      case Err(e) => RunResult([], Fatal(e))
      case Ok(w) =>
        match webhookUrl
        case None => RunResult([], Fatal(Io))
        case Some(url) => CrawlPages(fuel, storedPage.GetOr(U32_MAX), w, url, fetch, deliver, [], 0)
  }

  /** The state files after a run: written only when the run reaches its end. */
  function StoreAfter(store: Store, r: RunResult): (t: Store)
    ensures r.outcome.Saved? ==>
      GetLastPage(t) == Ok(Some(r.outcome.page)) && GetLastSentPost(t) == Ok(Some(r.outcome.lastId))
    ensures !r.outcome.Saved? ==> t == store
  {
    match r.outcome
    case Saved(page, lastId) => SetCursor(store, page, lastId)
    case _ => store
  }

  /** The extractors and `EmbedBuilder` calls for a new post
      (src/main.rs:235-258), as the source makes them. */
  method BuildEmbed(post: PostElement) returns (r: Result<EmbedBuilder>)
    ensures r.Ok? <==> PostEmbed(post).Ok?
    ensures r.Err? ==> r.error == PostEmbed(post).error
    ensures r.Ok? ==> fresh(r.value) && r.value.embed == PostEmbed(post).value
  {
    var timestamp := GetTimestamp(post);
    if timestamp.Err? {
      return Err(timestamp.error);
    }
    var usernameElement := GetUsernameElement(post);
    if usernameElement.Err? {
      return Err(usernameElement.error);
    }
    var username := GetUsernameStr(usernameElement.value);
    if username.Err? {
      return Err(username.error);
    }
    var userUrl := GetUserUrl(usernameElement.value);
    if userUrl.Err? {
      return Err(userUrl.error);
    }
    var avatarUrl := GetAvatarUrl(post);
    if avatarUrl.Err? {
      return Err(avatarUrl.error);
    }
    var content := GetContent(post);
    if content.Err? {
      return Err(content.error);
    }
    var title := GetTitle(content.value, DEFAULT_TITLE);

    var embed := new EmbedBuilder();
    embed.Timestamp(timestamp.value);
    embed.Author(Some(Truncate(username.value, NAME_BUDGET)), Some(userUrl.value), avatarUrl.value);
    embed.Description(Truncate(content.value, DESCRIPTION_BUDGET));
    embed.Title(Truncate(title, TITLE_BUDGET));
    r := Ok(embed);
  }

  /** The `for post in posts` loop of a page with a stored watermark
      (src/main.rs:228-268): deliver each post newer than `lastSentId`, stop
      at the first failed delivery, give up at the first error. */
  method DeliverPosts(webhook: Webhook, url: string, posts: seq<PostElement>, lastSentId: U32,
                      deliver: nat -> bool, sent0: seq<Notification>, attempts0: nat)
    returns (st: Scan)
    ensures st == ScanPosts(posts, lastSentId, url, deliver, Scan(sent0, attempts0, lastSentId, Scanning))
  {
    ghost var start := Scan(sent0, attempts0, lastSentId, Scanning);
    var sent, attempts := sent0, attempts0;
    var lastIdTemp: U32 := lastSentId;
    for i := 0 to |posts|
      invariant ScanPosts(posts, lastSentId, url, deliver, start)
        == ScanPosts(posts[i..], lastSentId, url, deliver, Scan(sent, attempts, lastIdTemp, Scanning))
    {
      var post := posts[i];
      ghost var here := Scan(sent, attempts, lastIdTemp, Scanning);
      assert posts[i..][0] == post && posts[i..][1..] == posts[i + 1..];
      var postId := GetPostId(post);
      if postId.Err? {
        return Scan(sent, attempts, lastIdTemp, Fault(postId.error));
      }
      if postId.value > lastSentId {
        var embed := BuildEmbed(post);
        if embed.Err? {
          return Scan(sent, attempts, lastIdTemp, Fault(embed.error));
        }
        var execution := webhook.Execute(url);
        execution.AddEmbed(embed.value);
        assert execution.payload == Payload(embed.value.embed);
        var delivered := deliver(attempts);
        attempts := attempts + 1;
        if !delivered {
          return Scan(sent, attempts, lastIdTemp, DeliveryFailed);
        }
        sent := sent + [Notification(postId.value, url, execution.payload)];
        lastIdTemp := postId.value;
      }
    }
    st := Scan(sent, attempts, lastIdTemp, Scanning);
  }

  /** One iteration of the outer `loop` (src/main.rs:203-286): fetch the page,
      resolve `u32::MAX` from the redirect, deliver or take the baseline, and
      find where to go next. */
  method ProcessPage(webhook: Webhook, page: U32, w: Option<U32>, url: string,
                     fetch: U32 -> Option<Response>, deliver: nat -> bool,
                     sent: seq<Notification>, attempts: nat)
    returns (v: Visit)
    ensures v == VisitPage(page, w, url, fetch, deliver, sent, attempts)
  {
    var pageNumber := page;
    var response := fetch(pageNumber);
    if response.None? {
      return Visit(sent, attempts, Abort(Reqwest));
    }
    var resp := response.value;
    if pageNumber == U32_MAX {
      var resolved := ResolvePage(resp.pathSegments);
      if resolved.Err? {
        return Visit(sent, attempts, Abort(resolved.error));
      }
      pageNumber := resolved.value;
    }
    if resp.body.None? {
      return Visit(sent, attempts, Abort(Reqwest));
    }
    var doc := resp.body.value;
    var posts := doc.posts;

    var lastId: U32;
    var failed := false;
    var sentNow, attemptsNow := sent, attempts;
    if w.Some? {
      var st := DeliverPosts(webhook, url, posts, w.value, deliver, sent, attempts);
      sentNow, attemptsNow := st.sent, st.attempts;
      if st.status.Fault? {
        return Visit(sentNow, attemptsNow, Abort(st.status.error));
      }
      failed := st.status.DeliveryFailed?;
      lastId := st.lastIdTemp;
    } else {
      var lastPostId := LastPostId(posts);
      if lastPostId.Err? {
        return Visit(sent, attempts, Abort(lastPostId.error));
      }
      lastId := lastPostId.value;
    }

    if !failed {
      if doc.nextPage.Some? {
        var text := FirstText(doc.nextPage.value);
        if text.None? {
          return Visit(sentNow, attemptsNow, Abort(Scraping));
        }
        var nextPage := ParseU32(text.value);
        if nextPage.None? {
          return Visit(sentNow, attemptsNow, Abort(Scraping));
        }
        return Visit(sentNow, attemptsNow, Next(nextPage.value));
      }
    }
    v := Visit(sentNow, attemptsNow, Stop(pageNumber, lastId));
  }

  /** `run`, step by step as the source does it, with at most `maxPages`
      iterations of the outer loop. */
  method Run(store: Store, webhookUrl: Option<string>, fetch: U32 -> Option<Response>,
             deliver: nat -> bool, maxPages: nat)
    returns (r: RunResult, after: Store)
    ensures r == RunOf(store, webhookUrl, fetch, deliver, maxPages)
    ensures after == StoreAfter(store, r)
  {
    after := store;
    var storedPage := GetLastPage(store);
    if storedPage.Err? {
      r := RunResult([], Fatal(storedPage.error));
      return;
    }
    var pageNumber: U32 := storedPage.value.GetOr(U32_MAX);
    var lastSentPost := GetLastSentPost(store);
    if lastSentPost.Err? {
      r := RunResult([], Fatal(lastSentPost.error));
      return;
    }
    var webhook := new Webhook.WithClient();
    if webhookUrl.None? {
      r := RunResult([], Fatal(Io));
      return;
    }
    var url := webhookUrl.value;

    var lastId: U32 := 0;
    var sent: seq<Notification> := [];
    var attempts: nat := 0;
    var fuel := maxPages;
    while true
      invariant CrawlPages(fuel, pageNumber, lastSentPost.value, url, fetch, deliver, sent, attempts)
        == RunOf(store, webhookUrl, fetch, deliver, maxPages)
      decreases fuel
    {
      if fuel == 0 {
        r := RunResult(sent, OutOfFuel);
        return;
      }
      var visit := ProcessPage(webhook, pageNumber, lastSentPost.value, url, fetch, deliver, sent, attempts);
      fuel := fuel - 1;
      sent, attempts := visit.sent, visit.attempts;
      if visit.step.Abort? {
        r := RunResult(sent, Fatal(visit.step.error));
        return;
      }
      if visit.step.Stop? {
        pageNumber, lastId := visit.step.page, visit.step.lastId;
        break;
      }
      pageNumber := visit.step.page;
    }

    after := SetCursor(store, pageNumber, lastId);
    r := RunResult(sent, Saved(pageNumber, lastId));
  }
}
