# TrueEditor: the MacRumors to WordPress pipeline, in Dafny

TrueEditor (`app.py`) is a Telegram bot with two buttons:

- **"Получить" (refresh)** picks the next article from the MacRumors sitemap. It skips every URL already listed in the cache file `macrumors.txt`. It stages the article's URL, title, description, cover image and text in five deques of the `MacRumors` object.
- **"Добавить" (add)** pops the staged fields and translates them. It uploads the cover to WordPress, creates a draft post with the upload's `id` as `featured_media`, and appends the URL to the cache file when the post's `id` is an int.

The WordPress client authenticates with an HTTP Basic header built in its constructor.

This project models that pipeline and proves what it guarantees:

- `Catalog`: the candidate filter of `new_post_get_from_sitemap`.
  - `str.strip` on the cache lines, with Python's `isspace`.
  - The list comprehension and the take-first.
- `Base64` and `Utf8`: the encoders behind the Authorization header.
  - `base64.b64encode` follows section 4 of RFC 4648.
  - `str.encode()` is UTF-8.
- `WordPress`: `__init__` (`api_url` and the header) and the two requests `upload_image` and `create_post` send.
  - For a username without a colon, a Basic header that a server reads as in section 2 of RFC 7617 yields the configured credentials.
- `Pipeline`: the five deques and the cache file as a value `State`.
  - `refresh` and `add` are pure steps on it.
  - The remote replies, the page lookups and the translator are inputs.
- `Scraper`: the `MacRumors` class. Its deques and cache lines are fields, and the `get_*` methods push onto them.
- `Telegram`: the two handlers as methods that update a `MacRumors` object.
  - Each is proved to produce exactly the state and outcome of its `Pipeline` step.
  - So every lemma about the steps holds of the handlers.
- `Properties`: commands in sequence and the lemmas over them.
  - Single slot, append-only cache, dedup, and the matched-deques invariant.
  - The as-written behaviour of the findings below, for every input and as concrete counterexamples.

A deque is a sequence whose right end is its last element. The cache file is the sequence of lines written to it, without terminators. Reading it back gives those lines and `strip` is applied to each.

Exceptions in the source become outcome values:

- `RefreshOutcome`: `SitemapFailed`, `NoCandidate`, `PageFailed`, `LookupFailed(slot)`.
- `AddOutcome`: `EmptyQueue(slot)`, `UploadFailed`, `MediaIdMissing`, `PostFailed`, `NotRecorded`.

The state the source has reached when an exception is raised is kept: pushes and pops already done stay done.

In four places the code does not do what a pipeline like this would be expected to do; the model follows the code:

- **Staging is not all-or-nothing.** The code pushes the URL and each field as it finds it, so a page with a missing element leaves a partial article (see Findings).
- **A URL can be cached without being published.** A refresh with an article already staged writes that URL to the cache file: the skipped article is marked as seen, not published.
- **The cache file is appended to without a membership test.** Recording is not idempotent by itself. `Properties.RunKeepsLedgerSound` proves that no line is written twice, provided the sitemaps list locs without surrounding whitespace and the cache starts without a line twice. A loc with surrounding whitespace is written again, because app.py:112-119 strips only the cache lines.
- **Failures are not typed.** An exception ends the handler and the chat user is told nothing; only the debug log may hold the traceback. The model names the failing step in the outcome.

## Model

| member | source | states |
|---|---|---|
| Catalog.Strip | app.py:112-114 | The stripped line has no whitespace at either end, and it is the slice of the line left after cutting only whitespace from both ends. It equals the line exactly when the line has no surrounding whitespace. |
| Catalog.Uncached | app.py:115-120 | The comprehension keeps exactly the locs that are not stripped cache lines, and no more entries than the sitemap has. |
| Catalog.UncachedHead | app.py:115-121 | The first kept entry is a loc that is not cached, and every loc before it in document order is cached. |
| Catalog.NewPost | app.py:111-121 | Succeeds if and only if some loc is not among the stripped cache lines, and then returns the first such loc in document order. Otherwise `post_url[0]` raises, modelled as `NoCandidate`. |
| Catalog.CachedNeverSelected | app.py:111-121 | A loc without surrounding whitespace that is a line of the cache file is never returned. |
| Base64.EncodeShape | app.py:41 | The encoding has 4 characters per started group of three octets, and each is an alphabet character or the pad. |
| Base64.DecodeEncode | app.py:41 | Decoding the encoding gives back the octets: the token loses nothing. |
| Base64.EncodeDecode | app.py:41 | Every text the decoder accepts (it rejects non-zero pad bits, as section 3.5 of RFC 4648 allows) is the encoding of its octets, so the octets determine the text. |
| Utf8.Encode | app.py:41 | Each character takes one to four octets. |
| Utf8.DecodeEncode | app.py:41 | UTF-8 decoding of the encoded credentials gives back the string. |
| WordPress.Authorization | app.py:40-44 | The header is "Basic " followed by text that base64-decodes to the UTF-8 of `username:password`. |
| WordPress.NewClient | app.py:35-44 | Keeps `site_url`. `api_url` is `site_url` + "/wp-json/wp/v2". The header is `Authorization`, and when the username has no colon a server parsing it recovers both username and password. |
| WordPress.AuthorizationDetermined | app.py:40-44 | Any text that starts with "Basic " and whose rest base64-decodes to the UTF-8 of `username:password` is the header itself: the contract of `Authorization` fixes the header exactly. |
| WordPress.BasicRoundTrip | app.py:40-44 | For a username without a colon, parsing the header (scheme, base64, UTF-8, first colon) yields exactly the configured credentials. |
| Pipeline.SkipStaged | app.py:220-225 | With nothing staged the state is unchanged (IndexError swallowed). Otherwise the staged URL is popped and appended to the cache and nothing else changes. |
| Pipeline.RefreshStep | app.py:219-236 | The cache is what the skip left. With no candidate (no sitemap, or every loc cached), the result is the skipped state with the catalog's failure. With a candidate whose page fetch failed, it is the skipped state with `PageFailed` of that URL. With a fetched page, it is exactly the state and outcome of staging that page onto the skipped state. From a single-slot state, every outcome except a failed lookup leaves the deques matched to the staged page. |
| Pipeline.StagePage | app.py:227-236 | The URL is pushed first. The outcome is the first missing lookup in the order cover, title, description, text, else `Staged`. Every field before the missing one has gained its value twice, and the missing field and all later ones are untouched. On success all four have gained their value twice. The cache never changes. |
| Pipeline.MissingSlot | app.py:229-236 | No lookup fails if and only if all four elements are on the page. |
| Pipeline.RefreshAtomicStep | app.py:219-236 | Corrected refresh. With no fetched candidate it agrees with `RefreshStep`. With a complete page it agrees with `RefreshStep` too, and the page is staged. With a page missing a lookup it leaves the skipped state unchanged and reports `LookupFailed` of the first missing slot. From a single-slot state the deques are always matched afterwards. |
| Pipeline.TakeStaged | app.py:187-191 | Succeeds if and only if all five deques are non-empty. It then pops the right end of each, translating title, description and text but not the cover. An empty deque stops the pops there: the deques before it have lost their right end, it and the later ones are untouched, and the failure names it. An empty URL deque changes nothing. The cache is never touched. |
| Pipeline.Publish | app.py:192-206 | The upload (to `api_url` + "/media", alt text and caption equal to the title) is always invoked first. The post is sent only after a media object with an `id`, and that `id` is its `featured_media`. The URL is appended to the cache if and only if the post's `id` is a Python int. Otherwise the state is unchanged. |
| Pipeline.AddStep | app.py:182-206 | Empty URL deque: `EmptyQueue(UrlSlot)`, no calls and no change. Some deque empty: no remote call, and the state is exactly what the pops before the empty deque left. All queued: the five pops, then the upload and post built from the popped (translated) values. The URL is recorded if and only if both replies succeed and the post `id` is an int. |
| Properties.StepCacheAppendOnly | app.py:205-206 | One command leaves the cache as it was or appends exactly one line. |
| Properties.RunCacheAppendOnly | app.py:205-206 | Over any command sequence the old cache is a prefix of the new one, which grows by at most one line per command. |
| Properties.RunKeepsSingleSlot | app.py:187-191 | From at most one staged URL, any command sequence (either refresh) keeps at most one. |
| Properties.AddPublishesStagedPage | app.py:187-203 | From matched deques, add uploads and posts exactly the (translated) fields of the staged URL's page and records that URL. |
| Properties.RunKeepsMatched | app.py:219-236 | With the corrected refresh, matched deques stay matched over any command sequence. |
| Properties.SelectedIsNew | app.py:111-121 | When the locs carry no surrounding whitespace, the chosen candidate is not a cache line. |
| Properties.SkipKeepsLedgerSound | app.py:220-225 | Moving the staged URL into the cache keeps the cache free of duplicates and empties the slot. |
| Properties.RefreshKeepsLedgerSound | app.py:219-236 | Either refresh keeps the cache duplicate-free and the staged URL outside it. |
| Properties.AddKeepsLedgerSound | app.py:204-206 | Add keeps the cache duplicate-free and the staged URL outside it. |
| Properties.RunKeepsLedgerSound | app.py:104-121 | From a state whose cache has no line twice and whose staged URL is not cached, over any command sequence whose sitemaps list locs without surrounding whitespace, the cache never gets a line twice and the staged URL is never already in it. |
| Properties.RefreshNeverStagesCached | app.py:220-226 | A URL that is in the cache or just skipped, and has no surrounding whitespace, is never selected again. |
| Properties.ExampleStaleRefresh | app.py:228-236 | With "a" committed, a refresh picks "b", pushes its URL and cover, and stops at the missing title. |
| Properties.ExampleStaleAdd | app.py:187-206 | The add that follows uploads the cover of "b" with the title and description of "a", posts the text of "a", and records "b". |
| Properties.StaleFieldsPublished | app.py:228-236 | The whole counterexample from an empty start: refresh, add, refresh, add publishes mixed fields and caches "b". |
| Properties.MissingTitlePublishesStaleFields | app.py:228-236 | For every input: after a refresh that stops at a missing title, the next add uploads the new page's cover under the previously staged title and description, posts the previously staged text, and records the new URL when both replies succeed. |
| Properties.MissingCoverRepublishesPrevious | app.py:228-230 | For every input: after a refresh that stops at a missing cover, the next add uploads and posts the four previously staged fields and records the new URL when both replies succeed. |
| Properties.ExampleNoCoverRefresh | app.py:228-230 | With "a" committed, a refresh picks "b", which has no `og:image`, and stages only its URL. |
| Properties.ExampleNoCoverAdd | app.py:187-206 | The add that follows republishes every field of "a" and records "b". |
| Properties.DuplicatePostOfPrevious | app.py:228-230 | From an empty start: refresh, add, refresh, add sends exactly the requests of the first add a second time, a duplicate post of "a", and caches "b" although it was never published. |
| Scraper.MacRumors.constructor | app.py:95-102 | Five empty deques; the cache holds the file's lines. |
| Scraper.MacRumors.GetTitle | app.py:130-135 | Returns the `og:title` content and pushes it onto the title deque; nothing else changes, and a missing tag pushes nothing. |
| Scraper.MacRumors.GetDescription | app.py:137-142 | Returns the `og:description` content and pushes it onto the description deque; nothing else changes. |
| Scraper.MacRumors.GetCover | app.py:144-149 | Returns the `og:image` content and pushes it onto the cover deque; nothing else changes. |
| Scraper.MacRumors.GetText | app.py:151-156 | Returns the article text and pushes it onto the text deque; nothing else changes. |
| Telegram.Refresh | app.py:219-236 | The handler leaves the object in exactly the state, with exactly the outcome, of `Pipeline.RefreshStep`. |
| Telegram.Stage | app.py:227-236 | The pushes after the fetch, getter and handler in turn, equal `Pipeline.StagePage`. |
| Telegram.RefreshAtomic | app.py:219-236 | The corrected handler equals `Pipeline.RefreshAtomicStep`. |
| Telegram.Take | app.py:187-191 | The five pops with the translations equal `Pipeline.TakeStaged`, and the object holds its state. |
| Telegram.Commit | app.py:192-206 | Upload, post and cache line equal `Pipeline.Publish`. |
| Telegram.Add | app.py:182-206 | The handler leaves the object in exactly the state, with exactly the outcome and calls, of `Pipeline.AddStep`. |

## Left out

- HTTP (aiohttp GET/POST): each remote step is an input.
  - The sitemap is an optional list of locs.
  - A page is an optional `Page` of four optional lookups.
  - The upload and post replies are `MediaReply` and `PostReply`.
  - The status asserts become the failure alternatives.
- `upload_image`'s temporary file (download, write, reopen, `os.remove`) is left out. A failure there is an `UploadFailed` reply.
- The first entry of the call list stands for the `upload_image` invocation. When the image download fails its status assert (app.py:56), no POST to `/media` is sent, yet the list still holds that entry.
- HTML and XML parsing with BeautifulSoup (`find_all("loc")`, the `og:*` meta tags, `article.contents[-2]`): their results are inputs.
- A meta tag without a `content` attribute is not modelled. The source would push `None` onto a deque; such a page is treated as one where the lookup succeeds or fails as a whole.
- The translator (`ts.google`) is a total function `string -> string` fixed for a run. A translation that raises between two pops is not modelled.
- File I/O on `macrumors.txt`: the cache is the sequence of lines written.
  - A missing or unreadable file, a write that fails, and URLs containing line breaks are not modelled.
  - The model also assumes that the initial file ends in a newline, so that an appended line stays a line of its own.
- The chat messages sent before and after each command, the keyboard markup, the admin link after an add, and the `Telegram` singleton (`__new__`) are user interface and transport.
- asyncio: the awaits order the steps inside one handler, and the model runs commands one at a time. Two handlers interleaving at an await (app.py:192, 197, 226, 227) while sharing the deques of `MacRumors` is not modelled.
- Credentials holding lone surrogates are not modelled. `os.getenv` decodes undecodable bytes of the environment into lone surrogates, and then `credentials.encode()` at app.py:41 raises UnicodeEncodeError. A Dafny `char` is a Unicode scalar value and cannot hold one.
- The environment-variable wiring and the logging setup of the main block are left out, as is the `Translate` wrapper's language pair.
- Properties.RunKeepsLedgerSound: the dedup guarantee is proved only for sitemaps whose locs carry no surrounding whitespace. The source compares each raw loc with the stripped cache lines, so a loc with surrounding whitespace never matches its own cache line and can be chosen again.
- Properties.RefreshNeverStagesCached: holds only for URLs without surrounding whitespace, for the same reason.
- Catalog.CachedNeverSelected: holds only for URLs without surrounding whitespace, for the same reason.

## Findings

| source | as written | input that shows it | evidently intended | confidence | as-written member | corrected member |
|---|---|---|---|---|---|---|
| app.py:228-236 | `refresh` pushes the URL, then each field as it is found. A lookup that raises leaves the URL and the earlier fields staged. The next `add` pops the new URL and cover but the previous article's title, description and text, publishes that mix, and records the new URL as done. | Sitemap ["a", "b"]; article "a" is complete and has been added; article "b" has no `og:title`. Refresh, then add, posts title "Ta" and text "Xa" under the cover of "b" and writes "b" to the cache. | Stage an article only when all four lookups succeed (all or nothing), so that the deques always hold the staged URL's own fields. | medium, not executed | Properties.StaleFieldsPublished | Pipeline.RefreshAtomicStep |
| app.py:228-230 | `refresh` pushes the URL before looking up the cover. When `og:image` is missing, only the URL is staged. The next `add` pops it together with the fields the previous article left behind, posts that article again, and records the new URL as done. | Sitemap ["a", "b"]; article "a" is complete and has been added; article "b" has no `og:image`. Refresh, then add, sends the same upload and post as the add of "a" and writes "b" to the cache. | Stage an article only when all four lookups succeed, so that an add never publishes an article twice. | medium, not executed | Properties.DuplicatePostOfPrevious | Pipeline.RefreshAtomicStep |
