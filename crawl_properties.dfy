/** What the crawl guarantees, proved about the functions `Crawl.Run` is
    verified against: which posts are delivered, which watermark is
    persisted, what a baseline run does, where a failed delivery leaves the
    cursor, and that re-running after a completed run changes nothing. */
module CrawlProperties {
  import opened Types
  import opened Numerals
  import opened Dom
  import opened Extract
  import opened CursorStore
  import opened Webhook
  import opened Crawl

  /** The post ids of a list of notifications. */
  function Ids(ns: seq<Notification>): (r: seq<U32>)
    ensures |r| == |ns| && forall k :: 0 <= k < |ns| ==> r[k] == ns[k].id
  {
    seq(|ns|, k requires 0 <= k < |ns| => ns[k].id)
  }

  /** The id of `p` if it parses and is above `w`, as a list of at most one. */
  function NewId(p: PostElement, w: U32): seq<U32> {
    match GetPostId(p)
    case Ok(id) => if id > w then [id] else []
    case Err(_) => []
  }

  /** The ids, in document order, of the posts whose id parses and is above `w`. */
  function NewIds(posts: seq<PostElement>, w: U32): seq<U32> {
    if posts == [] then [] else NewId(posts[0], w) + NewIds(posts[1..], w)
  }

  /** Every post id on the page parses, and ids grow in document order (the
      forum's numbering; the program relies on it without checking it). */
  ghost predicate AscendingIds(posts: seq<PostElement>) {
    && (forall i :: 0 <= i < |posts| ==> GetPostId(posts[i]).Ok?)
    && (forall i, j :: 0 <= i < j < |posts| ==> GetPostId(posts[i]).value < GetPostId(posts[j]).value)
  }

  /** How the post loop's state may change from `st` to `r` against watermark
      `w`: notifications are only appended, each for a post above `w` sent to
      `url`; attempts only grow; and `last_id_temp` is the id of the last
      notification appended, or unchanged if none was. */
  ghost predicate Grows(st: Scan, r: Scan, w: U32, url: string) {
    && StartsWith(r.sent, st.sent)
    && (forall k :: |st.sent| <= k < |r.sent| ==> r.sent[k].id > w && r.sent[k].url == url)
    && r.attempts >= st.attempts
    && r.lastIdTemp == (if |r.sent| == |st.sent| then st.lastIdTemp else r.sent[|r.sent| - 1].id)
  }

  lemma GrowsTransitive(a: Scan, b: Scan, c: Scan, w: U32, url: string)
    requires Grows(a, b, w, url) && Grows(b, c, w, url)
    ensures Grows(a, c, w, url)
  {
    assert c.sent[..|a.sent|] == a.sent by {
      assert c.sent[..|b.sent|][..|a.sent|] == a.sent;
    }
  }

  /** One iteration of the post loop keeps to `Grows`. */
  lemma ScanPostGrows(st: Scan, p: PostElement, w: U32, url: string, deliver: nat -> bool)
    requires st.status.Scanning?
    ensures Grows(st, ScanPost(st, p, w, url, deliver), w, url)
  {
  }

  /** The whole post loop keeps to `Grows`. */
  lemma {:induction false} ScanSendsOnlyNewPosts(posts: seq<PostElement>, w: U32, url: string,
                                                 deliver: nat -> bool, st: Scan)
    ensures Grows(st, ScanPosts(posts, w, url, deliver, st), w, url)
    decreases |posts|
  {
    if posts != [] && st.status.Scanning? {
      var st1 := ScanPost(st, posts[0], w, url, deliver);
      ScanPostGrows(st, posts[0], w, url, deliver);
      ScanSendsOnlyNewPosts(posts[1..], w, url, deliver, st1);
      GrowsTransitive(st, st1, ScanPosts(posts[1..], w, url, deliver, st1), w, url);
    }
  }

  /** The ids of what was appended between two stages of a growing list. */
  lemma {:induction false} AppendedIds(a: seq<Notification>, b: seq<Notification>, c: seq<Notification>)
    requires StartsWith(b, a) && StartsWith(c, b)
    ensures Ids(c[|a|..]) == Ids(b[|a|..]) + Ids(c[|b|..])
  {
    assert c[|a|..] == b[|a|..] + c[|b|..] by {
      assert c[..|b|] == b;
    }
    var x, y := b[|a|..], c[|b|..];
    assert Ids(x + y) == Ids(x) + Ids(y);
  }

  lemma PrefixAfterHead(h: seq<U32>, s: seq<U32>, t: seq<U32>)
    requires StartsWith(s, t)
    ensures StartsWith(h + s, h + t)
  {
    assert (h + s)[..|h + t|] == h + s[..|t|];
  }

  /** One iteration of the post loop delivers exactly the post's new id, or,
      when the delivery fails, nothing although the post was new. */
  lemma ScanPostIds(st: Scan, p: PostElement, w: U32, url: string, deliver: nat -> bool)
    requires st.status.Scanning?
    ensures var r := ScanPost(st, p, w, url, deliver);
      && |st.sent| <= |r.sent|
      && (r.status.Scanning? ==> Ids(r.sent[|st.sent|..]) == NewId(p, w))
      && (r.status.DeliveryFailed? ==> r.sent == st.sent && |NewId(p, w)| == 1)
  {
    var r := ScanPost(st, p, w, url, deliver);
    if r.status.Scanning? && r.sent != st.sent {
      assert r.sent[|st.sent|..] == [r.sent[|st.sent|]];
    }
  }

  /** Without an error, the posts delivered are exactly the posts above the
      watermark, in document order, up to the first failed delivery; a
      failed delivery leaves at least one of them undelivered. */
  lemma {:induction false} ScanDeliversInDocumentOrder(posts: seq<PostElement>, w: U32, url: string,
                                                       deliver: nat -> bool, st: Scan)
    requires st.status.Scanning?
    requires !ScanPosts(posts, w, url, deliver, st).status.Fault?
    ensures var r := ScanPosts(posts, w, url, deliver, st);
      && StartsWith(r.sent, st.sent)
      && StartsWith(NewIds(posts, w), Ids(r.sent[|st.sent|..]))
      && (r.status.Scanning? ==> Ids(r.sent[|st.sent|..]) == NewIds(posts, w))
      && (r.status.DeliveryFailed? ==> |r.sent| - |st.sent| < |NewIds(posts, w)|)
    decreases |posts|
  {
    var r := ScanPosts(posts, w, url, deliver, st);
    ScanSendsOnlyNewPosts(posts, w, url, deliver, st);
    if posts == [] {
      assert r.sent[|st.sent|..] == [];
    } else {
      var st1 := ScanPost(st, posts[0], w, url, deliver);
      ScanPostIds(st, posts[0], w, url, deliver);
      ScanPostGrows(st, posts[0], w, url, deliver);
      var head := NewId(posts[0], w);
      var tail := NewIds(posts[1..], w);
      assert NewIds(posts, w) == head + tail;
      if st1.status.Scanning? {
        ScanDeliversInDocumentOrder(posts[1..], w, url, deliver, st1);
        AppendedIds(st.sent, st1.sent, r.sent);
        PrefixAfterHead(head, tail, Ids(r.sent[|st1.sent|..]));
      } else {
        assert r == st1;
        assert r.sent[|st.sent|..] == [];
      }
    }
  }

  /** Every id `NewIds` lists is above the watermark. */
  lemma {:induction false} NewIdsAboveWatermark(posts: seq<PostElement>, w: U32)
    ensures forall k :: 0 <= k < |NewIds(posts, w)| ==> NewIds(posts, w)[k] > w
    decreases |posts|
  {
    if posts != [] {
      NewIdsAboveWatermark(posts[1..], w);
    }
  }

  /** The embed for a new post: it is built exactly when every extractor
      succeeds, any failure is a scraping error, and it carries the
      timestamp, the author's profile link and avatar, and the author's name,
      the message and the title truncated to 256, 2048 and 256 codepoints,
      and nothing else. */
  lemma PostEmbedContents(p: PostElement)
    ensures PostEmbed(p).Ok? <==>
      (&& GetTimestamp(p).Ok? && p.username.Some?
       && GetUsernameStr(p.username.value).Ok? && GetUserUrl(p.username.value).Ok?
       && GetAvatarUrl(p).Ok? && GetContent(p).Ok?)
    ensures PostEmbed(p).Err? ==> PostEmbed(p).error == Scraping
    ensures PostEmbed(p).Ok? ==>
      var e := PostEmbed(p).value;
      var content := GetContent(p).value;
      var name := GetUsernameStr(p.username.value).value;
      && e.timestamp == Some(GetTimestamp(p).value)
      && e.author.Some? && e.author.value.url == Some(GetUserUrl(p.username.value).value)
      && e.author.value.iconUrl == GetAvatarUrl(p).value
      && e.author.value.name == Some(Truncate(name, NAME_BUDGET))
      && |e.author.value.name.value| <= NAME_BUDGET
      && StartsWith(name, e.author.value.name.value)
      && e.description == Some(Truncate(content, DESCRIPTION_BUDGET))
      && |e.description.value| <= DESCRIPTION_BUDGET
      && StartsWith(content, e.description.value)
      && e.title == Some(Truncate(GetTitle(content, DEFAULT_TITLE), TITLE_BUDGET))
      && |e.title.value| <= TITLE_BUDGET
      && StartsWith(GetTitle(content, DEFAULT_TITLE), e.title.value)
      && '\n' !in e.title.value
      && e.url.None? && e.color.None? && e.footer.None? && e.image.None? && e.thumbnail.None?
      && e.fields == []
  {
    if PostEmbed(p).Ok? {
      var t := GetTitle(GetContent(p).value, DEFAULT_TITLE);
      var tt := Truncate(t, TITLE_BUDGET);
      assert forall i :: 0 <= i < |tt| ==> tt[i] == t[i];
    }
  }

  /** Each notification of a page carries the payload `send_message` posts:
      the embed of the post it announces and nothing else. */
  lemma ScanPostPayload(st: Scan, p: PostElement, w: U32, url: string, deliver: nat -> bool)
    requires st.status.Scanning?
    ensures var r := ScanPost(st, p, w, url, deliver);
      |r.sent| > |st.sent| ==>
        && PostEmbed(p).Ok?
        && r.sent[|st.sent|] == Notification(GetPostId(p).value, url, Payload(PostEmbed(p).value))
        && r.sent[|st.sent|].payload.embeds == [PostEmbed(p).value]
        && r.sent[|st.sent|].payload.(embeds := []) == EMPTY_PAYLOAD
  {
  }

  /** One page with a stored watermark `w`: only posts above `w` are
      delivered, and the watermark it ends with is the last id delivered on
      this page, or `w` itself if this page delivered nothing — whatever
      earlier pages of the run delivered. */
  lemma VisitPageWatermark(page: U32, w: U32, url: string, fetch: U32 -> Option<Response>,
                           deliver: nat -> bool, sent: seq<Notification>, attempts: nat)
    ensures var v := VisitPage(page, Some(w), url, fetch, deliver, sent, attempts);
      && AppendsAbove(sent, v.sent, w)
      && (v.step.Stop? ==>
            && v.step.lastId == (if |v.sent| == |sent| then w else v.sent[|v.sent| - 1].id)
            && v.step.lastId >= w)
  {
    if fetch(page).Some? && fetch(page).value.body.Some? {
      var doc := fetch(page).value.body.value;
      ScanSendsOnlyNewPosts(doc.posts, w, url, deliver, Scan(sent, attempts, w, Scanning));
    }
  }

  /** A delivery failure ends the run on the page where it happened, with
      `last_id_temp` as the watermark and without reading the next-page link;
      without one, the run follows the link or, without a link, stops. */
  lemma VisitPageTransition(page: U32, w: U32, url: string, fetch: U32 -> Option<Response>,
                            deliver: nat -> bool, sent: seq<Notification>, attempts: nat)
    requires fetch(page).Some? && fetch(page).value.body.Some?
    requires ResolvedPage(page, fetch(page).value).Ok?
    ensures var doc := fetch(page).value.body.value;
      var st := ScanPosts(doc.posts, w, url, deliver, Scan(sent, attempts, w, Scanning));
      var here := ResolvedPage(page, fetch(page).value).value;
      var v := VisitPage(page, Some(w), url, fetch, deliver, sent, attempts);
      && (st.status.DeliveryFailed? ==> v.step == Stop(here, st.lastIdTemp))
      && (st.status.Scanning? && doc.nextPage.None? ==> v.step == Stop(here, st.lastIdTemp))
      && (st.status.Scanning? && NextPageNumber(doc.nextPage).Ok? && NextPageNumber(doc.nextPage).value.Some? ==>
            v.step == Next(NextPageNumber(doc.nextPage).value.value))
      && (st.status.Scanning? && NextPageNumber(doc.nextPage).Err? ==> v.step == Abort(Scraping))
      && (st.status.Fault? ==> v.step == Abort(st.status.error))
  {
  }

  /** A post whose marker does not give an id ends the page with a scraping
      error, whatever was delivered before it on the page. */
  lemma MalformedMarkerAborts(page: U32, w: U32, url: string, fetch: U32 -> Option<Response>,
                              deliver: nat -> bool, sent: seq<Notification>, attempts: nat, k: nat)
    requires fetch(page).Some? && fetch(page).value.body.Some?
    requires ResolvedPage(page, fetch(page).value).Ok?
    requires var posts := fetch(page).value.body.value.posts;
      k < |posts| && GetPostId(posts[k]).Err?
    requires var posts := fetch(page).value.body.value.posts;
      ScanPosts(posts[..k], w, url, deliver, Scan(sent, attempts, w, Scanning)).status.Scanning?
    ensures var v := VisitPage(page, Some(w), url, fetch, deliver, sent, attempts);
      && v.step == Abort(Scraping)
      && v.sent == ScanPosts(fetch(page).value.body.value.posts[..k], w, url, deliver, Scan(sent, attempts, w, Scanning)).sent
  {
    var posts := fetch(page).value.body.value.posts;
    var st0 := Scan(sent, attempts, w, Scanning);
    ScanSplit(posts[..k], posts[k..], w, url, deliver, st0);
    assert posts[..k] + posts[k..] == posts;
    var st := ScanPosts(posts[..k], w, url, deliver, st0);
    assert posts[k..][0] == posts[k];
    assert ScanPost(st, posts[k], w, url, deliver).status == Fault(Scraping);
    assert ScanPosts(posts[k..], w, url, deliver, st) == ScanPosts(posts[k..][1..], w, url, deliver, ScanPost(st, posts[k], w, url, deliver));
  }

  /** The post loop over `a + b` is the loop over `b` from where the loop over `a` ended. */
  lemma {:induction false} ScanSplit(a: seq<PostElement>, b: seq<PostElement>, w: U32, url: string,
                                     deliver: nat -> bool, st: Scan)
    ensures ScanPosts(a + b, w, url, deliver, st) == ScanPosts(b, w, url, deliver, ScanPosts(a, w, url, deliver, st))
    decreases |a|
  {
    if a == [] {
      assert a + b == b;
    } else if st.status.Scanning? {
      assert (a + b)[1..] == a[1..] + b;
      ScanSplit(a[1..], b, w, url, deliver, ScanPost(st, a[0], w, url, deliver));
    } else {
      ScanStopped(b, w, url, deliver, st);
    }
  }

  /** A stopped post loop stays stopped. */
  lemma ScanStopped(posts: seq<PostElement>, w: U32, url: string, deliver: nat -> bool, st: Scan)
    requires !st.status.Scanning?
    ensures ScanPosts(posts, w, url, deliver, st) == st
  {
  }

  /** A baseline page reads only the id of its last post. */
  lemma LastPostIdReadsLastOnly(posts: seq<PostElement>, p: PostElement)
    ensures LastPostId(posts + [p]) == GetPostId(p)
  {
    assert (posts + [p])[|posts + [p]| - 1] == p;
  }

  /** A baseline page (no stored watermark) delivers nothing; it ends with the
      id of its last post, and a page without posts is a scraping error. */
  lemma VisitPageBaseline(page: U32, url: string, fetch: U32 -> Option<Response>,
                          deliver: nat -> bool, sent: seq<Notification>, attempts: nat)
    ensures var v := VisitPage(page, None, url, fetch, deliver, sent, attempts);
      && v.sent == sent && v.attempts == attempts
      && (v.step.Stop? ==>
            && fetch(page).Some? && fetch(page).value.body.Some?
            && LastPostId(fetch(page).value.body.value.posts) == Ok(v.step.lastId))
      && (&& fetch(page).Some? && ResolvedPage(page, fetch(page).value).Ok?
          && fetch(page).value.body.Some? && fetch(page).value.body.value.posts == []
          ==> v.step == Abort(Scraping))
  {
  }

  /** `b` is `a` followed by notifications for posts above `w` only. */
  ghost predicate AppendsAbove(a: seq<Notification>, b: seq<Notification>, w: U32) {
    StartsWith(b, a) && forall k :: |a| <= k < |b| ==> b[k].id > w
  }

  lemma AppendsAboveTransitive(a: seq<Notification>, b: seq<Notification>, c: seq<Notification>, w: U32)
    requires AppendsAbove(a, b, w) && AppendsAbove(b, c, w)
    ensures AppendsAbove(a, c, w)
  {
    assert c[..|a|] == a by {
      assert c[..|b|][..|a|] == a;
    }
  }

  /** A run from a stored watermark `w` delivers only posts above `w`. */
  lemma {:induction false} CrawlAppendsAbove(fuel: nat, page: U32, w: U32, url: string,
                                             fetch: U32 -> Option<Response>, deliver: nat -> bool,
                                             sent: seq<Notification>, attempts: nat)
    ensures AppendsAbove(sent, CrawlPages(fuel, page, Some(w), url, fetch, deliver, sent, attempts).sent, w)
    decreases fuel
  {
    if fuel > 0 {
      var v := VisitPage(page, Some(w), url, fetch, deliver, sent, attempts);
      VisitPageWatermark(page, w, url, fetch, deliver, sent, attempts);
      if v.step.Next? {
        var r := CrawlPages(fuel - 1, v.step.page, Some(w), url, fetch, deliver, v.sent, v.attempts);
        assert CrawlPages(fuel, page, Some(w), url, fetch, deliver, sent, attempts) == r;
        CrawlAppendsAbove(fuel - 1, v.step.page, w, url, fetch, deliver, v.sent, v.attempts);
        AppendsAboveTransitive(sent, v.sent, r.sent, w);
      }
    }
  }

  /** A run from a stored watermark `w` persists a watermark of at least
      `w`: either `w` or the id of the last notification it delivered. */
  lemma {:induction false} CrawlWatermark(fuel: nat, page: U32, w: U32, url: string,
                                          fetch: U32 -> Option<Response>, deliver: nat -> bool,
                                          sent: seq<Notification>, attempts: nat)
    ensures var r := CrawlPages(fuel, page, Some(w), url, fetch, deliver, sent, attempts);
      r.outcome.Saved? ==>
        && r.outcome.lastId >= w
        && (r.outcome.lastId == w || (|r.sent| > |sent| && r.outcome.lastId == r.sent[|r.sent| - 1].id))
    decreases 2 * fuel
  {
    if fuel > 0 {
      VisitPageWatermark(page, w, url, fetch, deliver, sent, attempts);
      AfterVisitWatermark(fuel - 1, VisitPage(page, Some(w), url, fetch, deliver, sent, attempts),
                          w, url, fetch, deliver, sent);
    }
  }

  /** The same from a visited page that kept to the watermark. */
  lemma {:induction false} AfterVisitWatermark(fuel: nat, v: Visit, w: U32, url: string,
                                               fetch: U32 -> Option<Response>, deliver: nat -> bool,
                                               sent: seq<Notification>)
    requires StartsWith(v.sent, sent)
    requires v.step.Stop? ==>
      && v.step.lastId >= w
      && v.step.lastId == (if |v.sent| == |sent| then w else v.sent[|v.sent| - 1].id)
    ensures var r := AfterVisit(fuel, v, Some(w), url, fetch, deliver);
      r.outcome.Saved? ==>
        && r.outcome.lastId >= w
        && (r.outcome.lastId == w || (|r.sent| > |sent| && r.outcome.lastId == r.sent[|r.sent| - 1].id))
    decreases 2 * fuel + 1
  {
    if v.step.Next? {
      CrawlWatermark(fuel, v.step.page, w, url, fetch, deliver, v.sent, v.attempts);
    }
  }

  /** A run without a stored watermark delivers nothing. */
  lemma {:induction false} CrawlBaseline(fuel: nat, page: U32, url: string,
                                         fetch: U32 -> Option<Response>, deliver: nat -> bool,
                                         sent: seq<Notification>, attempts: nat)
    ensures CrawlPages(fuel, page, None, url, fetch, deliver, sent, attempts).sent == sent
    decreases fuel
  {
    if fuel > 0 {
      var v := VisitPage(page, None, url, fetch, deliver, sent, attempts);
      VisitPageBaseline(page, url, fetch, deliver, sent, attempts);
      if v.step.Next? {
        CrawlBaseline(fuel - 1, v.step.page, url, fetch, deliver, v.sent, v.attempts);
      }
    }
  }

  /** Across runs: a run that finds watermark `w` stored delivers only posts
      above `w` and leaves a store from which the next run reads a watermark
      of at least `w`; a run without one delivers nothing. Only a run that
      reaches its end changes the store. */
  lemma RunWatermark(store: Store, webhookUrl: Option<string>, fetch: U32 -> Option<Response>,
                     deliver: nat -> bool, fuel: nat)
    ensures var r := RunOf(store, webhookUrl, fetch, deliver, fuel);
      && (GetLastSentPost(store) == Ok(None) ==> r.sent == [])
      && (GetLastSentPost(store).Ok? && GetLastSentPost(store).value.Some? ==>
            var w := GetLastSentPost(store).value.value;
            && (forall k :: 0 <= k < |r.sent| ==> r.sent[k].id > w)
            && (r.outcome.Saved? ==>
                  && GetLastSentPost(StoreAfter(store, r)) == Ok(Some(r.outcome.lastId))
                  && r.outcome.lastId >= w))
      && (!r.outcome.Saved? ==> StoreAfter(store, r) == store)
      && (r.outcome.Saved? ==> GetLastPage(StoreAfter(store, r)) == Ok(Some(r.outcome.page)))
  {
    var r := RunOf(store, webhookUrl, fetch, deliver, fuel);
    if GetLastPage(store).Ok? && GetLastSentPost(store).Ok? && webhookUrl.Some? {
      var page := GetLastPage(store).value.GetOr(U32_MAX);
      match GetLastSentPost(store).value
      case None =>
        CrawlBaseline(fuel, page, webhookUrl.value, fetch, deliver, [], 0);
      case Some(w) =>
        CrawlAppendsAbove(fuel, page, w, webhookUrl.value, fetch, deliver, [], 0);
        CrawlWatermark(fuel, page, w, webhookUrl.value, fetch, deliver, [], 0);
    }
  }

  /** A stored page of `u32::MAX` cannot be told from no stored page: both
      runs ask for the latest page. */
  lemma MaxPageIsUnset(lastPost: StoredFile, webhookUrl: Option<string>, fetch: U32 -> Option<Response>,
                       deliver: nat -> bool, fuel: nat)
    ensures RunOf(Store(WriteU32(U32_MAX), lastPost), webhookUrl, fetch, deliver, fuel)
         == RunOf(Store(Missing, lastPost), webhookUrl, fetch, deliver, fuel)
  {
    ReadAfterWrite(U32_MAX);
  }

  // ---- Re-running after a completed run ----

  /** Every page the thread serves has ascending ids. */
  ghost predicate AscendingThread(fetch: U32 -> Option<Response>) {
    forall p :: fetch(p).Some? && fetch(p).value.body.Some? ==> AscendingIds(fetch(p).value.body.value.posts)
  }

  /** Asking for the latest page and asking for the page it redirects to give
      the same content. */
  ghost predicate LatestIsCoherent(fetch: U32 -> Option<Response>) {
    fetch(U32_MAX).Some? && ResolvePage(fetch(U32_MAX).value.pathSegments).Ok? ==>
      var p := ResolvePage(fetch(U32_MAX).value.pathSegments).value;
      fetch(p).Some? && fetch(p).value.body == fetch(U32_MAX).value.body
  }

  /** When the webhook accepts every delivery, the post loop never stops at a
      failed one. */
  lemma {:induction false} ScanAllAccepted(posts: seq<PostElement>, w: U32, url: string,
                                           deliver: nat -> bool, st: Scan)
    requires st.status.Scanning?
    requires forall k :: deliver(k)
    ensures !ScanPosts(posts, w, url, deliver, st).status.DeliveryFailed?
    decreases |posts|
  {
    if posts != [] {
      var st1 := ScanPost(st, posts[0], w, url, deliver);
      if st1.status.Scanning? {
        ScanAllAccepted(posts[1..], w, url, deliver, st1);
      }
    }
  }

  /** With every delivery accepted on ascending ids, the post loop ends with a
      `last_id_temp` no lower than any id on the page. */
  lemma {:induction false} ScanCoversPage(posts: seq<PostElement>, w: U32, url: string,
                                          deliver: nat -> bool, st: Scan)
    requires st.status.Scanning? && st.lastIdTemp >= w
    requires AscendingIds(posts)
    requires forall k :: deliver(k)
    requires ScanPosts(posts, w, url, deliver, st).status.Scanning?
    ensures var r := ScanPosts(posts, w, url, deliver, st);
      r.lastIdTemp >= w && forall i :: 0 <= i < |posts| ==> GetPostId(posts[i]).value <= r.lastIdTemp
    decreases |posts|
  {
    if posts != [] {
      var st1 := ScanPost(st, posts[0], w, url, deliver);
      assert AscendingIds(posts[1..]) by {
        forall i | 0 <= i < |posts| - 1 ensures posts[1..][i] == posts[i + 1] {}
      }
      ScanCoversPage(posts[1..], w, url, deliver, st1);
      var r := ScanPosts(posts, w, url, deliver, st);
      forall i | 0 <= i < |posts| ensures GetPostId(posts[i]).value <= r.lastIdTemp {
        if i > 0 {
          assert posts[i] == posts[1..][i - 1];
        } else if |posts| > 1 {
          assert posts[1] == posts[1..][0];
        }
      }
    }
  }

  /** When no post on the page is above the watermark, the post loop does nothing. */
  lemma {:induction false} ScanNothingNew(posts: seq<PostElement>, w: U32, url: string,
                                          deliver: nat -> bool, st: Scan)
    requires st.status.Scanning?
    requires forall i :: 0 <= i < |posts| ==> GetPostId(posts[i]).Ok? && GetPostId(posts[i]).value <= w
    ensures ScanPosts(posts, w, url, deliver, st) == st
    decreases |posts|
  {
    if posts != [] {
      assert GetPostId(posts[0]).Ok?;
      ScanNothingNew(posts[1..], w, url, deliver, st);
    }
  }

  /** Where a page visit with every delivery accepted stops: the page was
      served with a body, has no next-page link, stands for the page number
      the visit stops at, and holds no id above the watermark it stops with. */
  lemma StopCoversPage(page: U32, w: Option<U32>, url: string, fetch: U32 -> Option<Response>,
                       deliver: nat -> bool, sent: seq<Notification>, attempts: nat)
    requires forall k :: deliver(k)
    requires AscendingThread(fetch)
    requires VisitPage(page, w, url, fetch, deliver, sent, attempts).step.Stop?
    ensures var s := VisitPage(page, w, url, fetch, deliver, sent, attempts).step;
      && fetch(page).Some? && fetch(page).value.body.Some?
      && ResolvedPage(page, fetch(page).value) == Ok(s.page)
      && fetch(page).value.body.value.nextPage.None?
      && var posts := fetch(page).value.body.value.posts;
         forall i :: 0 <= i < |posts| ==> GetPostId(posts[i]).Ok? && GetPostId(posts[i]).value <= s.lastId
  {
    var s := VisitPage(page, w, url, fetch, deliver, sent, attempts).step;
    var doc := fetch(page).value.body.value;
    assert AscendingIds(doc.posts);
    match w
    case Some(lastSentId) =>
      ScanAllAccepted(doc.posts, lastSentId, url, deliver, Scan(sent, attempts, lastSentId, Scanning));
      ScanCoversPage(doc.posts, lastSentId, url, deliver, Scan(sent, attempts, lastSentId, Scanning));
    case None =>
      assert GetPostId(doc.posts[|doc.posts| - 1]) == Ok(s.lastId);
  }

  /** Visiting a page with no next-page link and no id above the watermark
      delivers nothing and stops there with the same watermark. */
  lemma RevisitStops(page: U32, l: U32, url: string, fetch: U32 -> Option<Response>,
                     deliver: nat -> bool, sent: seq<Notification>, attempts: nat)
    requires fetch(page).Some? && fetch(page).value.body.Some?
    requires ResolvedPage(page, fetch(page).value) == Ok(page)
    requires fetch(page).value.body.value.nextPage.None?
    requires var posts := fetch(page).value.body.value.posts;
      forall i :: 0 <= i < |posts| ==> GetPostId(posts[i]).Ok? && GetPostId(posts[i]).value <= l
    ensures VisitPage(page, Some(l), url, fetch, deliver, sent, attempts) == Visit(sent, attempts, Stop(page, l))
  {
    var doc := fetch(page).value.body.value;
    ScanNothingNew(doc.posts, l, url, deliver, Scan(sent, attempts, l, Scanning));
  }

  /** The page where a run with every delivery accepted stops is a fixed
      point: visiting it again with the persisted watermark delivers nothing
      and stops at the same page with the same watermark. */
  lemma VisitFixedPoint(page: U32, w: Option<U32>, url: string, fetch: U32 -> Option<Response>,
                        deliver: nat -> bool, sent: seq<Notification>, attempts: nat,
                        deliver2: nat -> bool, sent2: seq<Notification>, attempts2: nat)
    requires forall k :: deliver(k)
    requires AscendingThread(fetch) && LatestIsCoherent(fetch)
    requires VisitPage(page, w, url, fetch, deliver, sent, attempts).step.Stop?
    ensures var s := VisitPage(page, w, url, fetch, deliver, sent, attempts).step;
      VisitPage(s.page, Some(s.lastId), url, fetch, deliver2, sent2, attempts2)
        == Visit(sent2, attempts2, Stop(s.page, s.lastId))
  {
    var s := VisitPage(page, w, url, fetch, deliver, sent, attempts).step;
    StopCoversPage(page, w, url, fetch, deliver, sent, attempts);
    // The page revisited serves the same posts and stands for the same number.
    assert fetch(s.page).Some? && fetch(s.page).value.body == fetch(page).value.body;
    assert ResolvedPage(s.page, fetch(s.page).value) == Ok(s.page);
    RevisitStops(s.page, s.lastId, url, fetch, deliver2, sent2, attempts2);
  }

  /** The same, for the whole crawl that ends there. */
  lemma {:induction false} CrawlFixedPoint(fuel: nat, page: U32, w: Option<U32>, url: string,
                                           fetch: U32 -> Option<Response>, deliver: nat -> bool,
                                           sent: seq<Notification>, attempts: nat, deliver2: nat -> bool)
    requires forall k :: deliver(k)
    requires AscendingThread(fetch) && LatestIsCoherent(fetch)
    requires CrawlPages(fuel, page, w, url, fetch, deliver, sent, attempts).outcome.Saved?
    ensures var o := CrawlPages(fuel, page, w, url, fetch, deliver, sent, attempts).outcome;
      VisitPage(o.page, Some(o.lastId), url, fetch, deliver2, [], 0) == Visit([], 0, Stop(o.page, o.lastId))
    decreases fuel
  {
    var v := VisitPage(page, w, url, fetch, deliver, sent, attempts);
    if v.step.Next? {
      CrawlFixedPoint(fuel - 1, v.step.page, w, url, fetch, deliver, v.sent, v.attempts, deliver2);
    } else {
      VisitFixedPoint(page, w, url, fetch, deliver, sent, attempts, deliver2, [], 0);
    }
  }

  /** Idempotent re-run: after a run that reached its end with every delivery
      accepted, running again against the unchanged thread delivers nothing
      and writes back the same cursor. */
  lemma RerunIsIdempotent(store: Store, url: string, fetch: U32 -> Option<Response>,
                          deliver: nat -> bool, fuel: nat, deliver2: nat -> bool, fuel2: nat)
    requires forall k :: deliver(k)
    requires AscendingThread(fetch) && LatestIsCoherent(fetch)
    requires RunOf(store, Some(url), fetch, deliver, fuel).outcome.Saved?
    requires fuel2 >= 1
    ensures var r := RunOf(store, Some(url), fetch, deliver, fuel);
      var r2 := RunOf(StoreAfter(store, r), Some(url), fetch, deliver2, fuel2);
      r2 == RunResult([], r.outcome) && StoreAfter(StoreAfter(store, r), r2) == StoreAfter(store, r)
  {
    var r := RunOf(store, Some(url), fetch, deliver, fuel);
    var page := GetLastPage(store).value.GetOr(U32_MAX);
    var w := GetLastSentPost(store).value;
    assert r == CrawlPages(fuel, page, w, url, fetch, deliver, [], 0);
    CrawlFixedPoint(fuel, page, w, url, fetch, deliver, [], 0, deliver2);
    var o := r.outcome;
    var store2 := StoreAfter(store, r);
    assert GetLastPage(store2) == Ok(Some(o.page)) && GetLastSentPost(store2) == Ok(Some(o.lastId));
    var v2 := VisitPage(o.page, Some(o.lastId), url, fetch, deliver2, [], 0);
    assert v2 == Visit([], 0, Stop(o.page, o.lastId));
    var r2 := RunOf(store2, Some(url), fetch, deliver2, fuel2);
    assert r2 == CrawlPages(fuel2, o.page, Some(o.lastId), url, fetch, deliver2, [], 0);
    assert r2 == AfterVisit(fuel2 - 1, v2, Some(o.lastId), url, fetch, deliver2);
  }
}
