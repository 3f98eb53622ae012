/** Concrete runs against a small thread, worked out from the definitions:
    the first (baseline) run, a delivery failure in the middle of a page, an
    error on a later page, and the watermark a failure on a later page
    persists. The posts are any posts with the given ids that the
    extractors accept; `SamplePost` shows such posts exist. */
module Scenarios {
  import opened Types
  import opened Numerals
  import opened Dom
  import opened Extract
  import opened CursorStore
  import opened Crawl
  import opened CrawlProperties

  /** `p` has id `id` and every extractor accepts it. */
  ghost predicate Good(p: PostElement, id: U32) {
    GetPostId(p) == Ok(id) && PostEmbed(p).Ok?
  }

  /** A thread served page by page: the page numbers in `pages` answer with
      their document, the latest-page request redirects to `latest`. */
  function Thread(pages: map<U32, Document>, latest: U32): U32 -> Option<Response> {
    p =>
      if p == U32_MAX && latest in pages then Some(Response(Some(["threads", "151", "page-" + Decimal(latest)]), Some(pages[latest])))
      else if p in pages then Some(Response(Some(["threads", "151", "page-" + Decimal(p)]), Some(pages[p])))
      else None
  }

  /** The next-page link of the page navigation, showing page `n`. */
  function LinkTo(n: U32): ElementNode {
    Element("a", map["href" := "/threads/151/page-" + Decimal(n)], [Text(Decimal(n))])
  }

  lemma LinkToPage(n: U32)
    ensures NextPageNumber(Some(LinkTo(n))) == Ok(Some(n))
  {
    ParseDecimal(n);
  }

  // ---- A post every extractor accepts ----

  const PRODUCT: string := " Kahvinkeitin"
  const PRICE: string := "Hinta 20 e"

  /** A post with id `id`, its author, and a message naming a product on its
      first line and a price on the second. */
  function SamplePost(id: U32): PostElement {
    PostElement(
      map["data-content" := "post-" + Decimal(id)],
      Some(Element("time", map["datetime" := "2024-05-01T12:00:00+0300"], [])),
      Some(Element("a", map["href" := "/members/ostaja.7/"], [Text("ostaja")])),
      None,
      Some(Element("div", map[], [Text(TITLE_MARKER + PRODUCT), Element("br", map[], []), Text(PRICE)])))
  }

  lemma ContentOfThree(a: Node, b: Node, c: Node)
    ensures Content([a, b, c]) == Content([a]) + Content([b]) + Content([c])
  {
    assert [a, b, c][1..] == [b, c];
    assert [b, c][1..] == [c];
    assert [c][1..] == [];
    assert Content([c]) == Contribution(c);
    assert Content([b, c]) == Contribution(b) + Contribution(c);
    assert Content([a, b, c]) == Contribution(a) + (Contribution(b) + Contribution(c));
  }

  /** The text of a sample post: its line break becomes a newline. */
  lemma SampleContent(id: U32)
    ensures GetContent(SamplePost(id)) == Ok(TITLE_MARKER + PRODUCT + ("\n" + PRICE))
  {
    var cs := SamplePost(id).body.value.children;
    ContentOfThree(cs[0], cs[1], cs[2]);
    ContentOfChild(cs[0]);
    ContentOfChild(cs[1]);
    ContentOfChild(cs[2]);
  }

  /** A sample post is accepted, with the product line as its title. */
  lemma SamplePostIsGood(id: U32)
    ensures Good(SamplePost(id), id)
    ensures PostEmbed(SamplePost(id)).value.title == Some(PRODUCT)
  {
    PostIdOfMarker(SamplePost(id), id);
    SampleContent(id);
    TitleRules(PRODUCT, "\n" + PRICE, "");
  }

  // ---- Runs ----

  /** The first run: nothing is stored, the latest page redirects to page 3,
      which holds posts 5, 6 and 7. Nothing is delivered and the cursor
      becomes page 3, post 7. */
  lemma BaselineRun(p5: PostElement, p6: PostElement, p7: PostElement)
    requires GetPostId(p7) == Ok(7)
    ensures var fetch := Thread(map[3 := Document([p5, p6, p7], None)], 3);
      var r := RunOf(Store(Missing, Missing), Some("hook"), fetch, k => true, 1);
      && r == RunResult([], Saved(3, 7))
      && GetLastPage(StoreAfter(Store(Missing, Missing), r)) == Ok(Some(3))
      && GetLastSentPost(StoreAfter(Store(Missing, Missing), r)) == Ok(Some(7))
  {
    ResolvePageUrl(3);
  }

  /** A post above the watermark whose delivery is accepted. */
  lemma Delivered(st: Scan, p: PostElement, id: U32, w: U32, url: string, deliver: nat -> bool)
    requires st.status.Scanning? && Good(p, id) && id > w && deliver(st.attempts)
    ensures ScanPost(st, p, w, url, deliver)
         == Scan(st.sent + [Notification(id, url, Payload(PostEmbed(p).value))], st.attempts + 1, id, Scanning)
  {
  }

  /** A post above the watermark whose delivery is refused. */
  lemma Refused(st: Scan, p: PostElement, id: U32, w: U32, url: string, deliver: nat -> bool)
    requires st.status.Scanning? && Good(p, id) && id > w && !deliver(st.attempts)
    ensures ScanPost(st, p, w, url, deliver) == st.(attempts := st.attempts + 1, status := DeliveryFailed)
  {
  }

  /** A page other than the latest-page request, served with a body, visited
      with a stored watermark: the post loop runs, then `Advance` decides. */
  lemma VisitServedPage(page: U32, w: U32, url: string, fetch: U32 -> Option<Response>,
                        deliver: nat -> bool, sent: seq<Notification>, attempts: nat, doc: Document)
    requires page != U32_MAX
    requires fetch(page).Some? && fetch(page).value.body == Some(doc)
    requires !ScanPosts(doc.posts, w, url, deliver, Scan(sent, attempts, w, Scanning)).status.Fault?
    ensures var st := ScanPosts(doc.posts, w, url, deliver, Scan(sent, attempts, w, Scanning));
      VisitPage(page, Some(w), url, fetch, deliver, sent, attempts)
        == Visit(st.sent, st.attempts, Advance(page, st.lastIdTemp, st.status.DeliveryFailed?, doc.nextPage))
  {
  }

  /** The post loop over a single post is that post's iteration. */
  lemma ScanOne(p: PostElement, w: U32, url: string, deliver: nat -> bool, st: Scan)
    requires st.status.Scanning?
    ensures ScanPosts([p], w, url, deliver, st) == ScanPost(st, p, w, url, deliver)
  {
    assert [p][1..] == [];
  }

  /** Page 4 holds posts 8, 9 and 10 above the stored watermark 7, and the
      webhook refuses the second delivery: post 8 is delivered, and the cursor
      stays on page 4 with watermark 8, so the next run retries from post 9. */
  lemma DeliveryFailsMidPage(p8: PostElement, p9: PostElement, p10: PostElement)
    requires Good(p8, 8) && Good(p9, 9)
    ensures var store := Store(WriteU32(4), WriteU32(7));
      var r := RunOf(store, Some("hook"), Thread(map[4 := Document([p8, p9, p10], None)], 4), k => k != 1, 1);
      && Ids(r.sent) == [8]
      && r.outcome == Saved(4, 8)
      && GetLastSentPost(StoreAfter(store, r)) == Ok(Some(8))
  {
    ReadAfterWrite(4);
    ReadAfterWrite(7);
    var deliver := k => k != 1;
    var posts := [p8, p9, p10];
    var st0 := Scan([], 0, 7, Scanning);
    var st1 := ScanPost(st0, p8, 7, "hook", deliver);
    Delivered(st0, p8, 8, 7, "hook", deliver);
    var st2 := ScanPost(st1, p9, 7, "hook", deliver);
    Refused(st1, p9, 9, 7, "hook", deliver);
    assert ScanPosts([p10], 7, "hook", deliver, st2) == st2;
    assert ScanPosts([p9, p10], 7, "hook", deliver, st1) == ScanPosts([p10], 7, "hook", deliver, st2) by {
      assert [p9, p10][1..] == [p10];
    }
    assert ScanPosts(posts, 7, "hook", deliver, st0) == ScanPosts([p9, p10], 7, "hook", deliver, st1) by {
      assert posts[1..] == [p9, p10];
    }
    var doc := Document(posts, None);
    var fetch := Thread(map[4 := doc], 4);
    VisitServedPage(4, 7, "hook", fetch, deliver, [], 0, doc);
  }

  /** Page 1 delivers post 8 and links to page 2, whose request fails: post 8
      was announced, but the run ends in an error and the stored cursor is
      left as it was, so the next run announces post 8 again. */
  lemma ErrorOnLaterPage(p8: PostElement)
    requires Good(p8, 8)
    ensures var store := Store(WriteU32(1), WriteU32(7));
      var r := RunOf(store, Some("hook"), Thread(map[1 := Document([p8], Some(LinkTo(2)))], 1), k => true, 2);
      && Ids(r.sent) == [8]
      && r.outcome == Fatal(Reqwest)
      && StoreAfter(store, r) == store
  {
    ReadAfterWrite(1);
    ReadAfterWrite(7);
    LinkToPage(2);
    var deliver: nat -> bool := k => true;
    var st0 := Scan([], 0, 7, Scanning);
    var st1 := ScanPost(st0, p8, 7, "hook", deliver);
    Delivered(st0, p8, 8, 7, "hook", deliver);
    ScanOne(p8, 7, "hook", deliver, st0);
    var doc := Document([p8], Some(LinkTo(2)));
    var fetch := Thread(map[1 := doc], 1);
    VisitServedPage(1, 7, "hook", fetch, deliver, [], 0, doc);
    assert fetch(2) == None;
  }

  /** Page 1 delivers post 8 and links to page 2, where delivering post 9
      fails. The watermark written is the stored 7, not 8: the running
      watermark starts again from the stored one on every page. The page
      cursor has moved on to page 2, so post 8 is not fetched again
      (`NextRunAfterRestart`). */
  lemma WatermarkRestartsPerPage(p8: PostElement, p9: PostElement)
    requires Good(p8, 8) && Good(p9, 9)
    ensures var store := Store(WriteU32(1), WriteU32(7));
      var pages := map[1 := Document([p8], Some(LinkTo(2))), 2 := Document([p9], None)];
      var r := RunOf(store, Some("hook"), Thread(pages, 2), k => k == 0, 2);
      && Ids(r.sent) == [8]
      && r.outcome == Saved(2, 7)
  {
    ReadAfterWrite(1);
    ReadAfterWrite(7);
    LinkToPage(2);
    var deliver: nat -> bool := k => k == 0;
    var st0 := Scan([], 0, 7, Scanning);
    var st1 := ScanPost(st0, p8, 7, "hook", deliver);
    Delivered(st0, p8, 8, 7, "hook", deliver);
    ScanOne(p8, 7, "hook", deliver, st0);
    var st2 := Scan(st1.sent, 1, 7, Scanning);
    Refused(st2, p9, 9, 7, "hook", deliver);
    ScanOne(p9, 7, "hook", deliver, st2);
    var doc1, doc2 := Document([p8], Some(LinkTo(2))), Document([p9], None);
    var fetch := Thread(map[1 := doc1, 2 := doc2], 2);
    VisitServedPage(1, 7, "hook", fetch, deliver, [], 0, doc1);
    VisitServedPage(2, 7, "hook", fetch, deliver, st1.sent, 1, doc2);
  }

  /** The run after `WatermarkRestartsPerPage`, with every delivery accepted:
      it starts from page 2 with watermark 7, delivers post 9 only, and
      stores page 2 with watermark 9. */
  lemma NextRunAfterRestart(p8: PostElement, p9: PostElement)
    requires Good(p8, 8) && Good(p9, 9)
    ensures var store := SetCursor(Store(WriteU32(1), WriteU32(7)), 2, 7);
      var pages := map[1 := Document([p8], Some(LinkTo(2))), 2 := Document([p9], None)];
      var r := RunOf(store, Some("hook"), Thread(pages, 2), k => true, 1);
      && Ids(r.sent) == [9]
      && r.outcome == Saved(2, 9)
  {
    var deliver: nat -> bool := k => true;
    var st0 := Scan([], 0, 7, Scanning);
    Delivered(st0, p9, 9, 7, "hook", deliver);
    ScanOne(p9, 7, "hook", deliver, st0);
    var doc1, doc2 := Document([p8], Some(LinkTo(2))), Document([p9], None);
    var fetch := Thread(map[1 := doc1, 2 := doc2], 2);
    VisitServedPage(2, 7, "hook", fetch, deliver, [], 0, doc2);
  }

  /** Page 1 delivers post 8 and links to page 2, whose only post has a
      marker that gives no id: the run ends in a scraping error after post 8
      was announced, and the stored cursor is left as it was. */
  lemma MalformedMarkerOnLaterPage(p8: PostElement, q: PostElement)
    requires Good(p8, 8) && GetPostId(q).Err?
    ensures var store := Store(WriteU32(1), WriteU32(7));
      var pages := map[1 := Document([p8], Some(LinkTo(2))), 2 := Document([q], None)];
      var r := RunOf(store, Some("hook"), Thread(pages, 2), k => true, 2);
      && Ids(r.sent) == [8]
      && r.outcome == Fatal(Scraping)
      && StoreAfter(store, r) == store
  {
    ReadAfterWrite(1);
    ReadAfterWrite(7);
    LinkToPage(2);
    var deliver: nat -> bool := k => true;
    var st0 := Scan([], 0, 7, Scanning);
    var st1 := ScanPost(st0, p8, 7, "hook", deliver);
    Delivered(st0, p8, 8, 7, "hook", deliver);
    ScanOne(p8, 7, "hook", deliver, st0);
    var doc1, doc2 := Document([p8], Some(LinkTo(2))), Document([q], None);
    var fetch := Thread(map[1 := doc1, 2 := doc2], 2);
    VisitServedPage(1, 7, "hook", fetch, deliver, [], 0, doc1);
    MalformedMarkerAborts(2, 7, "hook", fetch, deliver, st1.sent, 1, 0);
    assert [q][..0] == [];
  }
}
