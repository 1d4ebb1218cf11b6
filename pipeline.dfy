/**
 * The fetch/stage/commit pipeline of app.py as pure state transitions.
 *
 * `MacRumors` keeps five deques (`current_post_url`, `_title`,
 * `_description`, `_cover`, `_text`); `Telegram.refresh` ("Получить") stages
 * the next sitemap candidate into them and `Telegram.add` ("Добавить") pops
 * them and publishes. The cache file `macrumors.txt` is the dedup ledger.
 * Here the deques are sequences whose right end is the last element, and the
 * cache file is the sequence of its lines. Network replies, the page lookups
 * and the translator are inputs.
 */
module Pipeline {
  import opened Wrappers
  import Catalog
  import opened WordPress

  /**
   * What the four `get_*` lookups find on one article page (`og:title`,
   * `og:description`, `og:image`, the article's second-last child); `None`
   * where the element is missing and the lookup raises.
   */
  datatype Page = Page(title: Option<string>, description: Option<string>, cover: Option<string>, text: Option<string>)

  /** The five deques, named by what they hold. */
  datatype Slot = UrlSlot | TitleSlot | DescriptionSlot | CoverSlot | TextSlot

  /** The five deques and the lines of the cache file. */
  datatype State = State(url: seq<string>, title: seq<string>, description: seq<string>,
                         cover: seq<string>, text: seq<string>, cache: seq<string>)

  const Empty: State := State([], [], [], [], [], [])

  function Last(q: seq<string>): string
    requires |q| > 0
  {
    q[|q| - 1]
  }

  function DropLast(q: seq<string>): seq<string>
    requires |q| > 0
  {
    q[..|q| - 1]
  }

  /** A page on which all four lookups succeed, with those four values. */
  function FullPage(title: string, description: string, cover: string, text: string): Page {
    Page(Some(title), Some(description), Some(cover), Some(text))
  }

  /**
   * The deques agree with the sitemap: at most one URL is staged, and when one
   * is, the right end of every field deque is what its page yields.
   */
  ghost predicate Matched(s: State, fetch: string -> Option<Page>) {
    && |s.url| <= 1
    && (|s.url| == 1 ==>
          && |s.title| > 0 && |s.description| > 0 && |s.cover| > 0 && |s.text| > 0
          && fetch(s.url[0]) == Some(FullPage(Last(s.title), Last(s.description), Last(s.cover), Last(s.text))))
  }

  // ---------------------------------------------------------------- refresh

  datatype RefreshOutcome =
    | Staged(url: string)
    | SitemapFailed                      // the sitemap GET failed its status assert
    | NoCandidate                        // `post_url[0]` on an empty list
    | PageFailed(url: string)            // the article GET failed its status assert
    | LookupFailed(url: string, slot: Slot)  // a `get_*` lookup raised

  datatype RefreshResult = RefreshResult(state: State, outcome: RefreshOutcome)

  /**
   * The `try` block of `refresh`: a staged URL is popped and appended to the
   * cache file; with nothing staged the IndexError is swallowed.
   */
  function SkipStaged(s: State): (r: State)
    ensures |s.url| == 0 ==> r == s
    ensures |s.url| > 0 ==> r == s.(url := DropLast(s.url), cache := s.cache + [Last(s.url)])
  {
    if |s.url| == 0 then s else s.(url := DropLast(s.url), cache := s.cache + [Last(s.url)])
  }

  /** Whether the outcome names a selected candidate. */
  predicate Selected(o: RefreshOutcome) {
    o.Staged? || o.PageFailed? || o.LookupFailed?
  }

  /** The candidate of `new_post_get_from_sitemap`, or the way it fails. */
  function Candidate(cache: seq<string>, sitemap: Option<seq<string>>): Result<string, RefreshOutcome> {
    if sitemap.None? then Failure(SitemapFailed)
    else
      match Catalog.NewPost(sitemap.value, cache)
      case Failure(_) => Failure(NoCandidate)
      case Success(u) => Success(u)
  }

  /**
   * `Telegram.refresh` as the source runs it: skip the staged URL, choose the
   * next candidate, fetch its page, push the URL, then for cover, title,
   * description and text in turn look the value up (the getter pushes it)
   * and push it again. A lookup that raises ends the command where it is.
   */
  function RefreshStep(s: State, sitemap: Option<seq<string>>, fetch: string -> Option<Page>): (r: RefreshResult)
    ensures r.state.cache == SkipStaged(s).cache
    ensures Selected(r.outcome) ==> Candidate(SkipStaged(s).cache, sitemap) == Success(r.outcome.url)
    ensures r.state.url == SkipStaged(s).url + if r.outcome.Staged? || r.outcome.LookupFailed? then [r.outcome.url] else []
    ensures !(r.outcome.Staged? || r.outcome.LookupFailed?) ==> r.state == SkipStaged(s)
    ensures |s.url| <= 1 && !r.outcome.LookupFailed? ==> Matched(r.state, fetch)
    ensures r.outcome.Staged? || r.outcome.LookupFailed? ==>
              fetch(r.outcome.url).Some? && r == StagePage(SkipStaged(s), r.outcome.url, fetch(r.outcome.url).value)
    ensures var c := Candidate(SkipStaged(s).cache, sitemap);
            && (c.Failure? ==> r == RefreshResult(SkipStaged(s), c.error))
            && (c.Success? && fetch(c.value).None? ==> r == RefreshResult(SkipStaged(s), PageFailed(c.value)))
            && (c.Success? && fetch(c.value).Some? ==> r == StagePage(SkipStaged(s), c.value, fetch(c.value).value))
  {
    var s1 := SkipStaged(s);
    match Candidate(s1.cache, sitemap)
    case Failure(o) => RefreshResult(s1, o)
    case Success(u) =>
      match fetch(u)
      case None => RefreshResult(s1, PageFailed(u))
      case Some(page) => StagePage(s1, u, page)
  }

  /**
   * The second half of `refresh`: push the URL, then each value twice, in
   * the order cover, title, description, text, stopping at the first lookup
   * that raises.
   */
  function StagePage(s: State, u: string, page: Page): (r: RefreshResult)
    ensures r.state.url == s.url + [u] && r.state.cache == s.cache
    ensures r.outcome == if MissingSlot(page).Some? then LookupFailed(u, MissingSlot(page).value) else Staged(u)
    ensures page.cover.None? ==> r.state == s.(url := s.url + [u])
    ensures page.cover.Some? && page.title.None? ==>
              r.state == s.(url := s.url + [u], cover := s.cover + [page.cover.value, page.cover.value])
    ensures page.cover.Some? && page.title.Some? && page.description.None? ==>
              r.state == s.(url := s.url + [u], cover := s.cover + [page.cover.value, page.cover.value],
                            title := s.title + [page.title.value, page.title.value])
    ensures page.cover.Some? && page.title.Some? && page.description.Some? && page.text.None? ==>
              r.state == s.(url := s.url + [u], cover := s.cover + [page.cover.value, page.cover.value],
                            title := s.title + [page.title.value, page.title.value],
                            description := s.description + [page.description.value, page.description.value])
    ensures r.outcome.Staged? ==>
              r.state == s.(url := s.url + [u], cover := s.cover + [page.cover.value, page.cover.value],
                            title := s.title + [page.title.value, page.title.value],
                            description := s.description + [page.description.value, page.description.value],
                            text := s.text + [page.text.value, page.text.value])
  {
    var s2 := s.(url := s.url + [u]);
    if page.cover.None? then RefreshResult(s2, LookupFailed(u, CoverSlot))
    else
      var s3 := s2.(cover := s2.cover + [page.cover.value, page.cover.value]);
      if page.title.None? then RefreshResult(s3, LookupFailed(u, TitleSlot))
      else
        var s4 := s3.(title := s3.title + [page.title.value, page.title.value]);
        if page.description.None? then RefreshResult(s4, LookupFailed(u, DescriptionSlot))
        else
          var s5 := s4.(description := s4.description + [page.description.value, page.description.value]);
          if page.text.None? then RefreshResult(s5, LookupFailed(u, TextSlot))
          else
            var s6 := s5.(text := s5.text + [page.text.value, page.text.value]);
            RefreshResult(s6, Staged(u))
  }

  /** The first lookup that fails on `page`, in the order `refresh` runs them. */
  function MissingSlot(page: Page): (r: Option<Slot>)
    ensures r.None? <==> page.title.Some? && page.description.Some? && page.cover.Some? && page.text.Some?
  {
    if page.cover.None? then Some(CoverSlot)
    else if page.title.None? then Some(TitleSlot)
    else if page.description.None? then Some(DescriptionSlot)
    else if page.text.None? then Some(TextSlot)
    else None
  }

  /**
   * `refresh` with the staging made atomic: all four lookups run before
   * anything is pushed, so a page with a missing element stages nothing.
   */
  function RefreshAtomicStep(s: State, sitemap: Option<seq<string>>, fetch: string -> Option<Page>): (r: RefreshResult)
    ensures r.state.cache == SkipStaged(s).cache
    ensures Selected(r.outcome) ==> Candidate(SkipStaged(s).cache, sitemap) == Success(r.outcome.url)
    ensures r.state.url == SkipStaged(s).url + if r.outcome.Staged? then [r.outcome.url] else []
    ensures !r.outcome.Staged? ==> r.state == SkipStaged(s)
    ensures |s.url| <= 1 ==> Matched(r.state, fetch)
    ensures var c := Candidate(SkipStaged(s).cache, sitemap);
            && (!(c.Success? && fetch(c.value).Some?) ==> r == RefreshStep(s, sitemap, fetch))
            && (c.Success? && fetch(c.value).Some? && MissingSlot(fetch(c.value).value).None? ==>
                  r.outcome == Staged(c.value) && r == RefreshStep(s, sitemap, fetch))
            && (c.Success? && fetch(c.value).Some? && MissingSlot(fetch(c.value).value).Some? ==>
                  r == RefreshResult(SkipStaged(s), LookupFailed(c.value, MissingSlot(fetch(c.value).value).value)))
  {
    var s1 := SkipStaged(s);
    match Candidate(s1.cache, sitemap)
    case Failure(o) => RefreshResult(s1, o)
    case Success(u) =>
      match fetch(u)
      case None => RefreshResult(s1, PageFailed(u))
      case Some(page) =>
        match MissingSlot(page)
        case Some(slot) => RefreshResult(s1, LookupFailed(u, slot))
        case None => StagePage(s1, u, page)
  }

  // -------------------------------------------------------------------- add

  datatype AddOutcome =
    | EmptyQueue(slot: Slot)       // `pop()` on an empty deque raised IndexError
    | UploadFailed                 // `upload_image` raised
    | MediaIdMissing               // `cover_upload["id"]` raised KeyError
    | PostFailed                   // `create_post` raised
    | NotRecorded                  // the post's `id` is not a Python int: nothing written
    | Recorded(postId: JsonValue)  // the URL was appended to the cache file

  datatype AddResult = AddResult(state: State, outcome: AddOutcome, calls: seq<RemoteCall>)

  /**
   * The remote half of `Telegram.add`: upload the cover, create the post with
   * the media `id` as `featured_media`, and append `u` to the cache file only
   * when the post's `id` is an int.
   */
  function Publish(s: State, u: string, w: Client, title: string, description: string, cover: string,
                   text: string, media: MediaReply, post: PostReply): (r: AddResult)
    ensures 1 <= |r.calls| <= 2
    ensures r.calls[0] == UploadRequest(w, cover, title, description)
    ensures |r.calls| == 2 <==> media.MediaCreated? && media.id.Some?
    ensures |r.calls| == 2 ==> r.calls[1] == CreatePostRequest(w, title, text, media.id.value)
    ensures r.outcome.Recorded? <==>
              |r.calls| == 2 && post.PostCreated? && post.id.Some? && IsPythonInt(post.id.value)
    ensures r.state == if r.outcome.Recorded? then s.(cache := s.cache + [u]) else s
  {
    var upload := UploadRequest(w, cover, title, description);
    match media
    case MediaRejected => AddResult(s, UploadFailed, [upload])
    case MediaCreated(None) => AddResult(s, MediaIdMissing, [upload])
    case MediaCreated(Some(mediaId)) =>
      var create := CreatePostRequest(w, title, text, mediaId);
      match post
      case PostRejected => AddResult(s, PostFailed, [upload, create])
      case PostCreated(id) =>
        if id.Some? && IsPythonInt(id.value) then
          AddResult(s.(cache := s.cache + [u]), Recorded(id.value), [upload, create])
        else
          AddResult(s, NotRecorded, [upload, create])
  }

  /** True when every deque holds at least one element, so the five pops of `add` succeed. */
  predicate AllQueued(s: State) {
    |s.url| > 0 && |s.title| > 0 && |s.description| > 0 && |s.cover| > 0 && |s.text| > 0
  }

  /** The state after the five pops of `add`. */
  function Popped(s: State): State
    requires AllQueued(s)
  {
    s.(url := DropLast(s.url), title := DropLast(s.title), description := DropLast(s.description),
       cover := DropLast(s.cover), text := DropLast(s.text))
  }

  /** The five pops of `add` with the translations between them, or the deque that was empty. */
  datatype Taken =
    | Taken(state: State, url: string, title: string, description: string, cover: string, text: string)
    | TakeFailed(state: State, slot: Slot)

  /**
   * The first half of `Telegram.add`: pop the URL, then pop and translate
   * the title and the description, pop the cover, pop and translate the
   * text. A pop from an empty deque raises, and what was popped before it is
   * gone.
   */
  function TakeStaged(s: State, translate: string -> string): (t: Taken)
    ensures t.Taken? <==> AllQueued(s)
    ensures t.state.cache == s.cache
    ensures t.TakeFailed? ==> (t.slot == UrlSlot <==> |s.url| == 0)
    ensures |s.url| == 0 ==> t.state == s
    ensures |s.url| > 0 && |s.title| == 0 ==> t == TakeFailed(s.(url := DropLast(s.url)), TitleSlot)
    ensures |s.url| > 0 && |s.title| > 0 && |s.description| == 0 ==>
              t == TakeFailed(s.(url := DropLast(s.url), title := DropLast(s.title)), DescriptionSlot)
    ensures |s.url| > 0 && |s.title| > 0 && |s.description| > 0 && |s.cover| == 0 ==>
              t == TakeFailed(s.(url := DropLast(s.url), title := DropLast(s.title),
                                 description := DropLast(s.description)), CoverSlot)
    ensures |s.url| > 0 && |s.title| > 0 && |s.description| > 0 && |s.cover| > 0 && |s.text| == 0 ==>
              t == TakeFailed(s.(url := DropLast(s.url), title := DropLast(s.title),
                                 description := DropLast(s.description), cover := DropLast(s.cover)), TextSlot)
    ensures |s.url| > 0 ==> t.state.url == DropLast(s.url)
    ensures t.Taken? ==>
              && t.state == Popped(s) && t.url == Last(s.url)
              && t.title == translate(Last(s.title)) && t.description == translate(Last(s.description))
              && t.cover == Last(s.cover) && t.text == translate(Last(s.text))
  {
    if |s.url| == 0 then TakeFailed(s, UrlSlot)
    else
      var u := Last(s.url);
      var s1 := s.(url := DropLast(s.url));
      if |s1.title| == 0 then TakeFailed(s1, TitleSlot)
      else
        var title := translate(Last(s1.title));
        var s2 := s1.(title := DropLast(s1.title));
        if |s2.description| == 0 then TakeFailed(s2, DescriptionSlot)
        else
          var description := translate(Last(s2.description));
          var s3 := s2.(description := DropLast(s2.description));
          if |s3.cover| == 0 then TakeFailed(s3, CoverSlot)
          else
            var cover := Last(s3.cover);
            var s4 := s3.(cover := DropLast(s3.cover));
            if |s4.text| == 0 then TakeFailed(s4, TextSlot)
            else
              var text := translate(Last(s4.text));
              var s5 := s4.(text := DropLast(s4.text));
              assert s5 == Popped(s);
              Taken(s5, u, title, description, cover, text)
  }

  /** `Telegram.add`: take the staged fields, then publish them. */
  function AddStep(s: State, w: Client, translate: string -> string, media: MediaReply, post: PostReply): (r: AddResult)
    ensures |s.url| == 0 <==> r.outcome == EmptyQueue(UrlSlot)
    ensures |s.url| == 0 ==> r.state == s && r.calls == []
    ensures |s.url| > 0 ==> r.state.url == DropLast(s.url)
    ensures !AllQueued(s) ==> r.outcome.EmptyQueue? && r.calls == [] && r.state.cache == s.cache
    ensures !AllQueued(s) ==> r.state == TakeStaged(s, translate).state
    ensures AllQueued(s) ==>
              && r.state.url == DropLast(s.url) && r.state.title == DropLast(s.title)
              && r.state.description == DropLast(s.description) && r.state.cover == DropLast(s.cover)
              && r.state.text == DropLast(s.text)
              && 1 <= |r.calls| <= 2
              && r.calls[0] == UploadRequest(w, Last(s.cover), translate(Last(s.title)), translate(Last(s.description)))
              && (|r.calls| == 2 <==> media.MediaCreated? && media.id.Some?)
              && (|r.calls| == 2 ==>
                    r.calls[1] == CreatePostRequest(w, translate(Last(s.title)), translate(Last(s.text)), media.id.value))
    ensures r.outcome.Recorded? <==>
              && AllQueued(s) && media.MediaCreated? && media.id.Some?
              && post.PostCreated? && post.id.Some? && IsPythonInt(post.id.value)
    ensures r.state.cache == if r.outcome.Recorded? then s.cache + [Last(s.url)] else s.cache
  {
    match TakeStaged(s, translate)
    case TakeFailed(s1, slot) => AddResult(s1, EmptyQueue(slot), [])
    case Taken(s1, u, title, description, cover, text) => Publish(s1, u, w, title, description, cover, text, media, post)
  }
}
