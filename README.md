# tarjousbot, modelled in Dafny

tarjousbot watches one thread of the io-tech.fi forum, a thread where users post
offers. Every message newer than the last one it announced goes to a Discord
webhook as an embed. The embed carries:

- the message's timestamp;
- the author's name, profile link and avatar;
- the message text;
- a title: the rest of the first line after the marker `Tuote:`, or "Uusi tarjous" ("new offer").

The bot keeps a cursor between runs in two four-byte little-endian files:
`last_page`, and `last_post` (the watermark). A run does four things:

1. It loads the cursor. An unset page becomes `u32::MAX`, the forum's "latest page" request.
2. It walks the thread page by page. It delivers every post above the watermark and follows the next-page link.
3. It stops at the last page or at the first failed delivery.
4. It writes back the page it stopped on and the new watermark.

A first run, with no watermark stored, delivers nothing. It only records the
id of the latest post. Any error ends the run without writing the cursor.

These things become parameters:

- The network becomes two oracles. `fetch` maps a requested page number to a response, or to `None` for a transport or status error. `deliver` maps the number of a delivery attempt to whether the webhook accepted it.
- The state files become a `Store` value: each file is missing, fails to open, or holds bytes.
- The webhook URL file becomes an optional string.
- A parsed page becomes a `Document`: the `.message` elements in document order and the next-page link. Each message becomes a `PostElement`, holding what the selectors find inside it.

Modules, following the program's structure:

- `Types`: the crate's error, `Option`, `Result`.
- `Numerals`: `format!("{}")` and `str::parse::<u32>` on decimal numerals.
- `CursorStore`: the state files.
- `Dom`: the HTML nodes the program reads.
- `Extract`: the per-post extractors (src/main.rs:69-170).
- `Webhook`: the payload builders of src/webhook.rs, modelled as classes whose setters update a field in place.
- `Crawl`: `run`.
  - Its specification functions are `VisitPage` (one iteration of the outer loop), `CrawlPages` and `RunOf`.
  - `Crawl.Run` (the outer loop), `Crawl.ProcessPage` (the body of that loop) and `Crawl.DeliverPosts` (the post loop) are imperative methods. Each is proved equal to the function that specifies it.
- `CrawlProperties`: what a run guarantees.
- `Scenarios`: concrete runs worked out from the definitions.

In these points the model follows the code as written:

- The title after the marker may be empty; it does not fall back to the default.
- New posts are compared with the watermark as loaded at the start of the run.
- `last_id_temp` starts again from the loaded watermark on every page. So after a failure on a later page, the watermark written can be lower than the last id delivered, while the page cursor has moved on (`Scenarios.WatermarkRestartsPerPage`, `Scenarios.NextRunAfterRestart`).
- A stored page of `u32::MAX` is indistinguishable from no stored page.

## Model

| member | source | states |
|---|---|---|
| Types.OkOr | src/main.rs:76 | `ok_or`: `Ok` exactly when the option has a value, which it carries; otherwise the given error |
| Numerals.Decimal | src/main.rs:70 | the rendering of a number is a non-empty digit string without a leading zero (except "0") |
| Numerals.ValueOfDecimal | src/main.rs:70 | the rendering of `n` denotes `n` |
| Numerals.DecimalOfValue | src/main.rs:79 | a digit string without leading zeros is the rendering of its own value |
| Numerals.ParseU32 | src/main.rs:79 | a text that parses holds at least one digit after an optional '+', and only digits |
| Numerals.ParseU32Iff | src/main.rs:79 | `s` parses to `v` if and only if it is an optional '+' then a non-empty digit string of value `v`, and `v` fits in `u32` |
| Numerals.ParseDecimal | src/main.rs:69-80 | rendering a `u32`, with or without a leading '+', and parsing it back gives the number |
| Numerals.ParseRejects | src/main.rs:79-80 | the empty text, a bare '+' and anything starting with '-' do not parse |
| CursorStore.EncodeU32 | src/main.rs:45 | a stored value is exactly four bytes |
| CursorStore.DecodeEncode | src/main.rs:40-45 | decoding the little-endian encoding of a value gives it back |
| CursorStore.EncodeDecode | src/main.rs:40-45 | encoding a decoded buffer gives back its first four bytes |
| CursorStore.TryReadU32 | src/main.rs:30-41 | an I/O error exactly when opening fails for a reason other than absence; unset exactly when the file is missing or shorter than four bytes |
| CursorStore.WriteU32 | src/main.rs:43-47 | a written file holds exactly four bytes (`File::create` truncates) |
| CursorStore.ReadAfterWrite | src/main.rs:30-47 | reading back a written file gives the value written |
| CursorStore.ReadIgnoresTrailingBytes | src/main.rs:40 | bytes after the first four never change what is read |
| CursorStore.GetLastPage | src/main.rs:49-52 | `last_page` reads as unset exactly when it is missing or shorter than four bytes, and as an I/O error exactly when it cannot be opened |
| CursorStore.GetLastSentPost | src/main.rs:59-62 | the same for `last_post` |
| CursorStore.SetCursor | src/main.rs:54-67 | after writing the cursor, both files read back the page and watermark written |
| Dom.Attr | src/main.rs:75 | an attribute is found exactly when the element has it, with its value |
| Dom.FirstTextIsHeadOfTexts | src/main.rs:277-278 | `text().next()` is the first item of the element's text iterator, or nothing when there is none |
| Extract.GetPostId | src/main.rs:73-81 | an id is read only from a `data-content` starting with "post-"; any failure is a scraping error |
| Extract.PostIdOfMarker | src/main.rs:73-81 | the id is `v` if and only if `data-content` is "post-" followed by a numeral that parses to `v`, and "post-" + rendering of `v` gives `v` |
| Extract.PageUrl | src/main.rs:69-71 | the page URL is the thread URL, "/page-" and a non-empty digit string |
| Extract.ResolvePageUrl | src/main.rs:69-71 | what follows the thread path in the page URL for `n` is one path segment (no '/'), and reading the page number from the path ending in it gives `n` back |
| Extract.ResolvePage | src/main.rs:210-219 | a page number is read exactly when the URL has path segments and the last one is "page-" followed by a `u32` numeral; otherwise a scraping error |
| Extract.GetTimestamp | src/main.rs:154-163 | succeeds exactly when a `.u-dt` with a `datetime` attribute exists, with that attribute's value; otherwise a scraping error |
| Extract.GetUsernameElement | src/main.rs:143-152 | succeeds exactly when a `.username` exists, and returns it |
| Extract.GetUsernameStr | src/main.rs:138-141 | succeeds exactly when the element contains text, with its first text item |
| Extract.GetUserUrl | src/main.rs:127-136 | succeeds exactly when the element has an `href`, with the forum origin before it |
| Extract.GetAvatarUrl | src/main.rs:112-125 | no avatar gives no URL; an avatar without `src` is a scraping error; otherwise the origin before `src` |
| Extract.Contribution | src/main.rs:99-107 | the text one child of the message body contributes, one case per arm of the match; `Extract.ContentOfChild` states it |
| Extract.Content | src/main.rs:94-108 | the contributions of the children concatenated in order; `Extract.ContentAppend` states it |
| Extract.GetContent | src/main.rs:93-110 | fails exactly when the post has no `.bbWrapper`; otherwise the concatenated text of its children |
| Extract.ContentAppend | src/main.rs:95-109 | the text of a body is the text of its first children followed by the text of the rest |
| Extract.ContentOfChild | src/main.rs:97-107 | per child: a text verbatim, `br` a newline, a link its `href` or nothing, any other element its first text item only |
| Extract.FirstLine | src/main.rs:87-88 | the first line is a newline-free prefix, followed by a newline unless it is the whole text |
| Extract.GetTitle | src/main.rs:83-91 | a title never contains a newline |
| Extract.FirstLineUnique | src/main.rs:87-88 | the first line is the only prefix with those properties |
| Extract.TitleRules | src/main.rs:83-91 | "Tuote:" + a line + (nothing or a new line) has that line as its title; a message without the marker gets the default title |
| Extract.Truncate | src/main.rs:165-170 | the result is the first `min(n, length)` codepoints of the text |
| Extract.TruncateProperties | src/main.rs:165-170 | a text within the budget is unchanged, and truncating twice is truncating once |
| Webhook.EmbedBuilder.constructor | src/webhook.rs:96-100 | a new embed has every optional field unset and no fields |
| Webhook.EmbedBuilder.Title | src/webhook.rs:102-105 | sets the title; everything else is unchanged |
| Webhook.EmbedBuilder.Description | src/webhook.rs:107-110 | sets the description; everything else is unchanged |
| Webhook.EmbedBuilder.Url | src/webhook.rs:112-115 | sets the URL; everything else is unchanged |
| Webhook.EmbedBuilder.Timestamp | src/webhook.rs:117-120 | sets the timestamp; everything else is unchanged |
| Webhook.EmbedBuilder.Color | src/webhook.rs:122-125 | sets the colour; everything else is unchanged |
| Webhook.EmbedBuilder.Footer | src/webhook.rs:127-130 | sets the footer from its text and icon; everything else is unchanged |
| Webhook.EmbedBuilder.Image | src/webhook.rs:132-135 | sets the image; everything else is unchanged |
| Webhook.EmbedBuilder.Thumbnail | src/webhook.rs:137-140 | sets the thumbnail; everything else is unchanged |
| Webhook.EmbedBuilder.Author | src/webhook.rs:142-154 | sets the author from name, URL and icon; everything else is unchanged |
| Webhook.EmbedBuilder.Field | src/webhook.rs:156-163 | appends one field after the existing ones, which are kept in order |
| Webhook.TitleTwice | src/webhook.rs:102-105 | setters are last-write-wins |
| Webhook.TitleAndDescription | src/webhook.rs:102-110 | setters on different fields touch nothing else |
| Webhook.Webhook.WithClient | src/webhook.rs:11-13 | a webhook client; the HTTP client it wraps is not modelled |
| Webhook.Webhook.Execute | src/webhook.rs:212-219 | a fresh execution builder for the given URL with the default payload |
| Webhook.ExecutionBuilder.constructor | src/webhook.rs:214-218 | the builder holds the webhook, the URL and an empty payload |
| Webhook.ExecutionBuilder.Content | src/webhook.rs:173-176 | sets the content; everything else is unchanged |
| Webhook.ExecutionBuilder.Username | src/webhook.rs:178-181 | sets the username; everything else is unchanged |
| Webhook.ExecutionBuilder.AvatarUrl | src/webhook.rs:183-186 | sets the avatar URL; everything else is unchanged |
| Webhook.ExecutionBuilder.Tts | src/webhook.rs:188-191 | sets the text-to-speech flag; everything else is unchanged |
| Webhook.ExecutionBuilder.File | src/webhook.rs:193-196 | sets the file; everything else is unchanged |
| Webhook.ExecutionBuilder.AddEmbed | src/webhook.rs:198-201 | appends the builder's embed after the existing ones, which are kept in order |
| Crawl.PostEmbed | src/main.rs:235-258 | the embed built for a new post, or an extractor's error, which is always a scraping error; `CrawlProperties.PostEmbedContents` gives its contents |
| Crawl.Payload | src/main.rs:172-179 | the payload `send_message` posts holds the one embed and nothing else |
| Crawl.ScanPost | src/main.rs:231-266 | one iteration of the post loop; `CrawlProperties.ScanPostIds` and `CrawlProperties.ScanPostGrows` state it |
| Crawl.ScanPosts | src/main.rs:230-268 | the post loop, stopping at the first error or failed delivery; `CrawlProperties.ScanDeliversInDocumentOrder` states it |
| Crawl.LastPostId | src/main.rs:271 | a baseline page without posts is a scraping error |
| CrawlProperties.LastPostIdReadsLastOnly | src/main.rs:271 | a non-empty baseline page gives its last post's id, whatever the posts before it are |
| Crawl.NextPageNumber | src/main.rs:275-281 | no link means no next page; a present link gives a next page exactly when its first text exists and parses, and that page is the number parsed; otherwise a scraping error |
| Crawl.Advance | src/main.rs:274-286 | where the loop goes after a page: stop here after a failed delivery, otherwise follow the next-page link; `CrawlProperties.VisitPageTransition` states it |
| Crawl.ResolvedPage | src/main.rs:208-220 | a request for a page other than `u32::MAX` stands for that page; a request for `u32::MAX` stands for the page read from the redirect path, or fails as that read fails |
| Crawl.VisitPage | src/main.rs:203-286 | one iteration of the outer loop; `CrawlProperties.VisitPageWatermark`, `VisitPageTransition` and `VisitPageBaseline` state it |
| Crawl.CrawlPages | src/main.rs:202-287 | the outer loop from a page, within a page budget; `CrawlProperties.CrawlWatermark` and `CrawlAppendsAbove` state it |
| Crawl.AfterVisit | src/main.rs:274-287 | the rest of the outer loop after a visited page: go on, stop with the cursor, or fail |
| Crawl.RunOf | src/main.rs:181-293 | a whole run: load the cursor and the webhook URL, then crawl; `CrawlProperties.RunWatermark` states it |
| Crawl.StoreAfter | src/main.rs:289-290 | a run that reaches its end writes its page and watermark, which read back; any other run leaves the store unchanged |
| Crawl.BuildEmbed | src/main.rs:235-258 | builds an embed exactly when every extractor succeeds; the embed is the one `PostEmbed` specifies, otherwise the extractor's error |
| Crawl.DeliverPosts | src/main.rs:228-268 | the `for post in posts` loop computes the post-loop state `ScanPosts` specifies |
| Crawl.ProcessPage | src/main.rs:203-286 | one iteration of the outer loop computes the page visit `VisitPage` specifies |
| Crawl.Run | src/main.rs:181-293 | `run` computes the run `RunOf` specifies, and leaves the store `StoreAfter` specifies |
| CrawlProperties.ScanPostGrows | src/main.rs:231-266 | one post loop iteration only appends notifications for posts above the watermark, and `last_id_temp` is the last id appended |
| CrawlProperties.ScanSendsOnlyNewPosts | src/main.rs:228-268 | the same for the whole post loop |
| CrawlProperties.ScanPostIds | src/main.rs:231-266 | one iteration delivers exactly the post's id if it is new; a failed delivery appends nothing although the post was new |
| CrawlProperties.ScanDeliversInDocumentOrder | src/main.rs:228-268 | without an error, the ids delivered are the new ids of the page in document order, up to the first failure; a failure leaves at least one undelivered |
| CrawlProperties.NewIdsAboveWatermark | src/main.rs:232 | every new id is above the watermark |
| CrawlProperties.PostEmbedContents | src/main.rs:235-258 | the embed exists exactly when every extractor succeeds; it carries the timestamp, the author's profile URL and avatar, and exactly the truncations of the author's name, the message and the title to 256, 2048 and 256 codepoints; nothing else is set |
| CrawlProperties.ScanPostPayload | src/main.rs:172-179 | each notification carries the payload `send_message` posts: the post's embed and nothing else |
| CrawlProperties.VisitPageWatermark | src/main.rs:227-269 | one page only delivers posts above the watermark; its `last_id` is the last id it delivered, or the loaded watermark if it delivered none |
| CrawlProperties.VisitPageTransition | src/main.rs:274-286 | a failed delivery, or no next-page link, stops at this page with `last_id_temp`; otherwise the run goes on to the linked page, and a link that does not give a page number aborts with a scraping error; an error in the post loop aborts |
| CrawlProperties.MalformedMarkerAborts | src/main.rs:231 | a post whose marker gives no id ends the page with a scraping error, after the deliveries made before it on the page |
| CrawlProperties.VisitPageBaseline | src/main.rs:270-272 | a baseline page delivers nothing and stops with the id of its last post; an empty page is a scraping error |
| CrawlProperties.CrawlAppendsAbove | src/main.rs:202-287 | a run from a stored watermark delivers only posts above it |
| CrawlProperties.CrawlWatermark | src/main.rs:227-290 | a completed run persists a watermark no lower than the loaded one: the loaded one or the last id it delivered |
| CrawlProperties.CrawlBaseline | src/main.rs:270-272 | a run without a stored watermark delivers nothing |
| CrawlProperties.RunWatermark | src/main.rs:181-293 | delivers only posts above the stored watermark, and nothing without one; a completed run stores the page and a watermark no lower; a run that fails leaves the store unchanged |
| CrawlProperties.MaxPageIsUnset | src/main.rs:182 | a stored page of `u32::MAX` behaves exactly like no stored page |
| CrawlProperties.ScanAllAccepted | src/main.rs:259-264 | when every delivery is accepted, the post loop never stops at a failed one |
| CrawlProperties.ScanCoversPage | src/main.rs:228-269 | with every delivery accepted and ascending ids, the page's `last_id` is at least every id on it |
| CrawlProperties.ScanNothingNew | src/main.rs:232 | a page without posts above the watermark leaves the loop state unchanged |
| CrawlProperties.StopCoversPage | src/main.rs:274-286 | a run with every delivery accepted stops on a served page without a next-page link, with a watermark covering all its ids |
| CrawlProperties.RevisitStops | src/main.rs:227-286 | revisiting a last page with nothing new delivers nothing and stops there with the same watermark |
| CrawlProperties.VisitFixedPoint | src/main.rs:181-293 | the page a fully accepted run stops at, revisited with the persisted watermark, stops again at the same cursor |
| CrawlProperties.CrawlFixedPoint | src/main.rs:181-293 | the same for the whole crawl |
| CrawlProperties.RerunIsIdempotent | src/main.rs:181-293 | after a completed run with every delivery accepted, a re-run against the same thread delivers nothing and writes back the same cursor |
| Scenarios.LinkToPage | src/main.rs:275-281 | a navigation link showing `n` leads to page `n` |
| Scenarios.SamplePostIsGood | src/main.rs:235-258 | a well-formed post is accepted, with the product line as its title |
| Scenarios.BaselineRun | src/main.rs:181-293 | a first run delivers nothing and stores the latest page and its last post id |
| Scenarios.DeliveryFailsMidPage | src/main.rs:259-264 | a refused delivery stops the run on that page with the last delivered id, so the next run retries from the refused post |
| Scenarios.ErrorOnLaterPage | src/main.rs:204-207 | a failed page request after a delivery ends the run with an error and the cursor unchanged, so the post is announced again |
| Scenarios.WatermarkRestartsPerPage | src/main.rs:228 | after a failure on a later page, the watermark stored is the loaded one, not the last id delivered, and the page stored is the later page |
| Scenarios.NextRunAfterRestart | src/main.rs:181-293 | the run after that starts from the later page, delivers only the post refused before, and stores its id |
| Scenarios.MalformedMarkerOnLaterPage | src/main.rs:231 | a malformed post marker on a later page, after a delivery, ends the run with a scraping error and the cursor unchanged |

## Left out

- HTTP: the `reqwest` client, its builder and user agent, `send`, `error_for_status` and reading the body. They are the `fetch` and `deliver` oracles. A client that cannot be built is not modelled.
- `ExecutionBuilder::send` and the JSON serialisation of payloads: a delivery is recorded as the payload value; nothing is serialised.
- HTML parsing and CSS selector matching: a page arrives as a `Document`, already selected.
- File I/O: `File::create` and write failures are not modelled, so `set_last_page` and `set_last_sent_post` always succeed. `get_webhook_url` is an optional string; `None` stands for its I/O error.
- The state directory path, logging (`eprintln!`), `main` and `process::exit`.
- `Webhook::with_client` keeps no client (no HTTP); the builders' `&mut Self` chaining is plain sequencing of method calls.
- src/error.rs's `Display` and `From` conversions: errors are the three kinds only.
- Crawl.CrawlPages: the outer `loop` has no bound in the source. It is bounded by a page budget here, and a run that uses up the budget ends in `OutOfFuel`, which writes nothing. A budget equal to the number of pages the run visits is enough.
- CrawlProperties.CrawlWatermark: states the persisted watermark as the loaded one or the last id delivered anywhere in the run. The exact per-page rule, the last id delivered on the final page, is stated by `CrawlProperties.VisitPageWatermark`.
