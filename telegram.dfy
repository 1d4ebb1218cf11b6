/**
 * The two button handlers of `Telegram` (app.py), run against the one
 * `MacRumors` object. Each is proved to leave that object in the state the
 * matching step of `Pipeline` computes, so every property proved about the
 * steps holds of the handlers.
 */
module Telegram {
  import opened Wrappers
  import opened WordPress
  import opened Pipeline
  import opened Scraper

  /** "Получить": `Telegram.refresh` as the source runs it. */
  method Refresh(m: MacRumors, sitemap: Option<seq<string>>, fetch: string -> Option<Page>) returns (outcome: RefreshOutcome)
    modifies m
    ensures RefreshResult(m.Snapshot(), outcome) == RefreshStep(old(m.Snapshot()), sitemap, fetch)
  {
    if |m.url| > 0 {
      var skipped := Last(m.url);
      m.url := DropLast(m.url);
      m.cache := m.cache + [skipped];
    }
    var candidate := Candidate(m.cache, sitemap);
    if candidate.Failure? {
      return candidate.error;
    }
    var u := candidate.value;
    var page := fetch(u);
    if page.None? {
      return PageFailed(u);
    }
    outcome := Stage(m, u, page.value);
  }

  /** The pushes of `refresh` once the page is fetched: the URL, then each value from its getter and once more. */
  method Stage(m: MacRumors, u: string, page: Page) returns (outcome: RefreshOutcome)
    modifies m
    ensures RefreshResult(m.Snapshot(), outcome) == StagePage(old(m.Snapshot()), u, page)
  {
    m.url := m.url + [u];
    var cover := m.GetCover(page);
    if cover.None? {
      return LookupFailed(u, CoverSlot);
    }
    m.cover := m.cover + [cover.value];
    var title := m.GetTitle(page);
    if title.None? {
      return LookupFailed(u, TitleSlot);
    }
    m.title := m.title + [title.value];
    var description := m.GetDescription(page);
    if description.None? {
      return LookupFailed(u, DescriptionSlot);
    }
    m.description := m.description + [description.value];
    var text := m.GetText(page);
    if text.None? {
      return LookupFailed(u, TextSlot);
    }
    m.text := m.text + [text.value];
    return Staged(u);
  }

  /** "Получить" with the lookups done before anything is pushed. */
  method RefreshAtomic(m: MacRumors, sitemap: Option<seq<string>>, fetch: string -> Option<Page>) returns (outcome: RefreshOutcome)
    modifies m
    ensures RefreshResult(m.Snapshot(), outcome) == RefreshAtomicStep(old(m.Snapshot()), sitemap, fetch)
  {
    if |m.url| > 0 {
      var skipped := Last(m.url);
      m.url := DropLast(m.url);
      m.cache := m.cache + [skipped];
    }
    var candidate := Candidate(m.cache, sitemap);
    if candidate.Failure? {
      return candidate.error;
    }
    var u := candidate.value;
    var page := fetch(u);
    if page.None? {
      return PageFailed(u);
    }
    var missing := MissingSlot(page.value);
    if missing.Some? {
      return LookupFailed(u, missing.value);
    }
    outcome := Stage(m, u, page.value);
  }

  /** The pops of `Telegram.add`, each field translated as it is popped, except the cover. */
  method Take(m: MacRumors, translate: string -> string) returns (t: Taken)
    modifies m
    ensures t == TakeStaged(old(m.Snapshot()), translate) && m.Snapshot() == t.state
  {
    if |m.url| == 0 {
      return TakeFailed(m.Snapshot(), UrlSlot);
    }
    var u, title, description, cover, text;
    m.url, u := DropLast(m.url), Last(m.url);
    if |m.title| == 0 {
      return TakeFailed(m.Snapshot(), TitleSlot);
    }
    m.title, title := DropLast(m.title), Last(m.title);
    title := translate(title);
    if |m.description| == 0 {
      return TakeFailed(m.Snapshot(), DescriptionSlot);
    }
    m.description, description := DropLast(m.description), Last(m.description);
    description := translate(description);
    if |m.cover| == 0 {
      return TakeFailed(m.Snapshot(), CoverSlot);
    }
    m.cover, cover := DropLast(m.cover), Last(m.cover);
    if |m.text| == 0 {
      return TakeFailed(m.Snapshot(), TextSlot);
    }
    m.text, text := DropLast(m.text), Last(m.text);
    text := translate(text);
    return Taken(m.Snapshot(), u, title, description, cover, text);
  }

  /** The remote half of `Telegram.add`: upload, create the post, then the cache line if the post `id` is an int. */
  method Commit(m: MacRumors, u: string, w: Client, title: string, description: string, cover: string, text: string,
                media: MediaReply, post: PostReply) returns (outcome: AddOutcome, calls: seq<RemoteCall>)
    modifies m
    ensures AddResult(m.Snapshot(), outcome, calls)
            == Publish(old(m.Snapshot()), u, w, title, description, cover, text, media, post)
  {
    calls := [UploadRequest(w, cover, title, description)];
    if media.MediaRejected? {
      return UploadFailed, calls;
    }
    if media.id.None? {
      return MediaIdMissing, calls;
    }
    calls := calls + [CreatePostRequest(w, title, text, media.id.value)];
    if post.PostRejected? {
      return PostFailed, calls;
    }
    if post.id.Some? && IsPythonInt(post.id.value) {
      m.cache := m.cache + [u];
      return Recorded(post.id.value), calls;
    }
    return NotRecorded, calls;
  }

  /** "Добавить": `Telegram.add`, with the replies of the two remote steps as inputs. */
  method Add(m: MacRumors, w: Client, translate: string -> string, media: MediaReply, post: PostReply)
    returns (outcome: AddOutcome, calls: seq<RemoteCall>)
    modifies m
    ensures AddResult(m.Snapshot(), outcome, calls) == AddStep(old(m.Snapshot()), w, translate, media, post)
  {
    var t := Take(m, translate);
    if t.TakeFailed? {
      return EmptyQueue(t.slot), [];
    }
    outcome, calls := Commit(m, t.url, w, t.title, t.description, t.cover, t.text, media, post);
  }
}
