/**
 * What the pipeline of app.py guarantees over single commands and over any
 * sequence of "Получить" (refresh) and "Добавить" (add) commands.
 */
module Properties {
  import opened Wrappers
  import Catalog
  import opened WordPress
  import opened Pipeline

  /** One button press with the replies the network gives it. */
  datatype Command =
    | RefreshCmd(sitemap: Option<seq<string>>)
    | AddCmd(media: MediaReply, post: PostReply)

  /** What stays fixed while the bot runs: the pages, the translator and the WordPress client. */
  datatype Env = Env(fetch: string -> Option<Page>, translate: string -> string, client: Client)

  /** One command; `atomic` chooses the corrected refresh. */
  function Step(s: State, c: Command, env: Env, atomic: bool): State {
    match c
    case RefreshCmd(sitemap) =>
      if atomic then RefreshAtomicStep(s, sitemap, env.fetch).state else RefreshStep(s, sitemap, env.fetch).state
    case AddCmd(media, post) => AddStep(s, env.client, env.translate, media, post).state
  }

  /** Commands handled one after another, as the awaited handlers are. */
  function Run(s: State, cmds: seq<Command>, env: Env, atomic: bool): State
    decreases |cmds|
  {
    if cmds == [] then s else Run(Step(s, cmds[0], env, atomic), cmds[1..], env, atomic)
  }

  // ------------------------------------------------------------ single slot

  /** `current_post_url` never holds more than one URL, whichever refresh runs. */
  lemma {:induction false} RunKeepsSingleSlot(s: State, cmds: seq<Command>, env: Env, atomic: bool)
    requires |s.url| <= 1
    ensures |Run(s, cmds, env, atomic).url| <= 1
    decreases |cmds|
  {
    if cmds != [] {
      RunKeepsSingleSlot(Step(s, cmds[0], env, atomic), cmds[1..], env, atomic);
    }
  }

  // ------------------------------------------------------------ append only

  /** The cache file only grows at its end, by at most one line per command. */
  lemma {:induction false} RunCacheAppendOnly(s: State, cmds: seq<Command>, env: Env, atomic: bool)
    ensures var c := Run(s, cmds, env, atomic).cache;
            |s.cache| <= |c| <= |s.cache| + |cmds| && c[..|s.cache|] == s.cache
    decreases |cmds|
  {
    if cmds != [] {
      var t := Step(s, cmds[0], env, atomic);
      StepCacheAppendOnly(s, cmds[0], env, atomic);
      RunCacheAppendOnly(t, cmds[1..], env, atomic);
      var c := Run(t, cmds[1..], env, atomic).cache;
      assert c[..|s.cache|] == c[..|t.cache|][..|s.cache|];
    }
  }

  /** One command leaves the cache file as it was or appends one line. */
  lemma StepCacheAppendOnly(s: State, c: Command, env: Env, atomic: bool)
    ensures var t := Step(s, c, env, atomic).cache;
            t == s.cache || (|t| == |s.cache| + 1 && t[..|s.cache|] == s.cache)
  {
    match c
    case RefreshCmd(sitemap) =>
      if atomic {
        var r := RefreshAtomicStep(s, sitemap, env.fetch);
        assert r.state.cache == SkipStaged(s).cache;
      } else {
        var r := RefreshStep(s, sitemap, env.fetch);
        assert r.state.cache == SkipStaged(s).cache;
      }
    case AddCmd(media, post) =>
      var r := AddStep(s, env.client, env.translate, media, post);
      assert r.state.cache == s.cache || r.state.cache == s.cache + [r.state.cache[|s.cache|]];
  }

  // ------------------------------------------------------------ staged fields

  /**
   * When the deques are matched, `add` uploads and posts exactly the fields
   * the staged URL's page yields, and that URL is what it records.
   */
  lemma AddPublishesStagedPage(s: State, env: Env, media: MediaReply, post: PostReply)
    requires Matched(s, env.fetch) && |s.url| == 1
    ensures var r := AddStep(s, env.client, env.translate, media, post);
            var p := env.fetch(s.url[0]).value;
            var title := env.translate(p.title.value);
            && r.calls[0] == UploadRequest(env.client, p.cover.value, title, env.translate(p.description.value))
            && (|r.calls| == 2 ==>
                  r.calls[1] == CreatePostRequest(env.client, title, env.translate(p.text.value), media.id.value))
            && (r.outcome.Recorded? ==> r.state.cache == s.cache + [s.url[0]])
            && Matched(r.state, env.fetch)
  {
  }

  /** With the corrected refresh, every reachable state is matched. */
  lemma {:induction false} RunKeepsMatched(s: State, cmds: seq<Command>, env: Env)
    requires Matched(s, env.fetch)
    ensures Matched(Run(s, cmds, env, true), env.fetch)
    decreases |cmds|
  {
    if cmds != [] {
      var t := Step(s, cmds[0], env, true);
      if cmds[0].AddCmd? {
        var r := AddStep(s, env.client, env.translate, cmds[0].media, cmds[0].post);
        assert |s.url| == 1 ==> |r.state.url| == 0;
      }
      assert Matched(t, env.fetch);
      RunKeepsMatched(t, cmds[1..], env);
    }
  }

  // ------------------------------------------------------------ dedup

  predicate NoDuplicates(q: seq<string>) {
    forall i, j :: 0 <= i < j < |q| ==> q[i] != q[j]
  }

  /** The cache file has no line twice, and the staged URL is not one of its lines. */
  predicate LedgerSound(s: State) {
    |s.url| <= 1 && NoDuplicates(s.cache) && forall u :: u in s.url ==> u !in s.cache
  }

  /** Every sitemap a refresh reads lists only locs without surrounding whitespace. */
  predicate LocsStripped(cmds: seq<Command>) {
    forall k, u :: 0 <= k < |cmds| && cmds[k].RefreshCmd? && cmds[k].sitemap.Some? && u in cmds[k].sitemap.value
                   ==> Catalog.IsStripped(u)
  }

  /** A loc without surrounding whitespace that is already a line of the cache file is never chosen. */
  lemma SelectedIsNew(locs: seq<string>, cache: seq<string>)
    requires forall u :: u in locs ==> Catalog.IsStripped(u)
    requires Catalog.NewPost(locs, cache).Success?
    ensures Catalog.NewPost(locs, cache).value !in cache
  {
    var u := Catalog.NewPost(locs, cache).value;
    if u in cache {
      Catalog.CachedNeverSelected(locs, cache, u);
    }
  }

  lemma SkipKeepsLedgerSound(s: State)
    requires LedgerSound(s)
    ensures LedgerSound(SkipStaged(s)) && |SkipStaged(s).url| == 0
  {
    if |s.url| > 0 {
      assert s.url == [Last(s.url)];
      AppendKeepsNoDuplicates(s.cache, Last(s.url));
    }
  }

  lemma AppendKeepsNoDuplicates(q: seq<string>, u: string)
    requires NoDuplicates(q) && u !in q
    ensures NoDuplicates(q + [u])
  {
    forall i, j | 0 <= i < j < |q| + 1 ensures (q + [u])[i] != (q + [u])[j] {
      if j == |q| {
        assert (q + [u])[i] == q[i];
      }
    }
  }

  lemma RefreshKeepsLedgerSound(s: State, sitemap: Option<seq<string>>, fetch: string -> Option<Page>, atomic: bool)
    requires LedgerSound(s)
    requires sitemap.Some? ==> forall u :: u in sitemap.value ==> Catalog.IsStripped(u)
    ensures LedgerSound(if atomic then RefreshAtomicStep(s, sitemap, fetch).state else RefreshStep(s, sitemap, fetch).state)
  {
    SkipKeepsLedgerSound(s);
    var s1 := SkipStaged(s);
    if sitemap.Some? && Catalog.NewPost(sitemap.value, s1.cache).Success? {
      SelectedIsNew(sitemap.value, s1.cache);
    }
  }

  lemma AddKeepsLedgerSound(s: State, env: Env, media: MediaReply, post: PostReply)
    requires LedgerSound(s)
    ensures LedgerSound(AddStep(s, env.client, env.translate, media, post).state)
  {
    var r := AddStep(s, env.client, env.translate, media, post);
    if r.outcome.Recorded? {
      assert s.url == [Last(s.url)];
      AppendKeepsNoDuplicates(s.cache, Last(s.url));
    }
  }

  /**
   * Dedup: the cache file never gets a line twice and the staged URL is never
   * already in it, under either refresh, provided the sitemap's locs carry
   * no surrounding whitespace.
   */
  lemma {:induction false} RunKeepsLedgerSound(s: State, cmds: seq<Command>, env: Env, atomic: bool)
    requires LedgerSound(s) && LocsStripped(cmds)
    ensures LedgerSound(Run(s, cmds, env, atomic))
    decreases |cmds|
  {
    if cmds != [] {
      match cmds[0] {
        case RefreshCmd(sitemap) =>
          if sitemap.Some? {
            forall u | u in sitemap.value ensures Catalog.IsStripped(u) {
              assert cmds[0].RefreshCmd? && cmds[0].sitemap.Some? && u in cmds[0].sitemap.value;
            }
          }
          RefreshKeepsLedgerSound(s, sitemap, env.fetch, atomic);
        case AddCmd(media, post) =>
          AddKeepsLedgerSound(s, env, media, post);
      }
      assert LocsStripped(cmds[1..]) by {
        forall k, u | 0 <= k < |cmds| - 1 && cmds[1..][k].RefreshCmd? && cmds[1..][k].sitemap.Some?
                      && u in cmds[1..][k].sitemap.value
          ensures Catalog.IsStripped(u)
        {
          assert cmds[1..][k] == cmds[k + 1];
        }
      }
      RunKeepsLedgerSound(Step(s, cmds[0], env, atomic), cmds[1..], env, atomic);
    }
  }

  /**
   * A URL skipped by `refresh` (or recorded by `add`) is never staged again:
   * neither the skipped one nor any line of the cache file, as long as it
   * carries no surrounding whitespace.
   */
  lemma RefreshNeverStagesCached(s: State, sitemap: Option<seq<string>>, fetch: string -> Option<Page>,
                                 u: string, atomic: bool)
    requires Catalog.IsStripped(u) && (u in s.cache || u in s.url)
    requires |s.url| <= 1
    ensures var r := if atomic then RefreshAtomicStep(s, sitemap, fetch) else RefreshStep(s, sitemap, fetch);
            Selected(r.outcome) ==> r.outcome.url != u
  {
    var s1 := SkipStaged(s);
    assert u in s1.cache by {
      if u in s.url { assert s.url == [Last(s.url)]; }
    }
    CandidateNotCached(s1.cache, sitemap, u);
  }

  lemma CandidateNotCached(cache: seq<string>, sitemap: Option<seq<string>>, u: string)
    requires Catalog.IsStripped(u) && u in cache
    ensures Candidate(cache, sitemap) != Success(u)
  {
    if sitemap.Some? {
      Catalog.CachedNeverSelected(sitemap.value, cache, u);
    }
  }

  // ------------------------------------------------------------ finding

  /** Article "a" has all four elements; article "b" has no `og:title`. */
  function ExamplePages(u: string): Option<Page> {
    if u == "a" then Some(FullPage("Ta", "Da", "Ca", "Xa"))
    else Some(Page(None, Some("Db"), Some("Cb"), Some("Xb")))
  }

  function Identity(x: string): string {
    x
  }

  const ExampleSitemap: Option<seq<string>> := Some(["a", "b"])
  const ExampleMedia: MediaReply := MediaCreated(Some(JsonInt(7)))
  const ExamplePost: PostReply := PostCreated(Some(JsonInt(9)))

  /** The first refresh stages "a", whose page is complete, whatever the other pages hold. */
  lemma ExampleFirstRefresh(fetch: string -> Option<Page>)
    requires fetch("a") == Some(FullPage("Ta", "Da", "Ca", "Xa"))
    ensures RefreshStep(Empty, ExampleSitemap, fetch)
            == RefreshResult(State(["a"], ["Ta", "Ta"], ["Da", "Da"], ["Ca", "Ca"], ["Xa", "Xa"], []), Staged("a"))
  {
    assert Catalog.Stripped([]) == [];
    assert Catalog.NewPost(["a", "b"], []) == Success("a");
  }

  /** The first add publishes "a" and records it; one copy of each field stays behind. */
  lemma ExampleFirstAdd(w: Client)
    ensures AddStep(State(["a"], ["Ta", "Ta"], ["Da", "Da"], ["Ca", "Ca"], ["Xa", "Xa"], []), w, Identity, ExampleMedia, ExamplePost)
            == AddResult(State([], ["Ta"], ["Da"], ["Ca"], ["Xa"], ["a"]), Recorded(JsonInt(9)),
                         [UploadRequest(w, "Ca", "Ta", "Da"), CreatePostRequest(w, "Ta", "Xa", JsonInt(7))])
  {
  }

  lemma ExampleFirstCommit(w: Client, fetch: string -> Option<Page>)
    requires fetch("a") == Some(FullPage("Ta", "Da", "Ca", "Xa"))
    ensures Run(Empty, [RefreshCmd(ExampleSitemap), AddCmd(ExampleMedia, ExamplePost)], Env(fetch, Identity, w), false)
            == State([], ["Ta"], ["Da"], ["Ca"], ["Xa"], ["a"])
  {
    var env := Env(fetch, Identity, w);
    var cmds := [RefreshCmd(ExampleSitemap), AddCmd(ExampleMedia, ExamplePost)];
    var s1 := State(["a"], ["Ta", "Ta"], ["Da", "Da"], ["Ca", "Ca"], ["Xa", "Xa"], []);
    var s2 := State([], ["Ta"], ["Da"], ["Ca"], ["Xa"], ["a"]);
    ExampleFirstRefresh(fetch);
    ExampleFirstAdd(w);
    assert Step(Empty, cmds[0], env, false) == s1;
    assert Step(s1, cmds[1], env, false) == s2;
    assert cmds[1..][1..] == [];
    assert Run(s1, cmds[1..], env, false) == Run(s2, [], env, false);
  }

  /** With "a" committed, the sitemap's next candidate is "b". */
  lemma ExampleStaleCandidate()
    ensures Candidate(["a"], ExampleSitemap) == Success("b")
  {
    assert Catalog.IsStripped("a");
    assert Catalog.Stripped(["a"]) == ["a"];
    assert ["a", "b"][1..] == ["b"] && ["b"][1..] == [];
    assert "b" !in ["a"];
    assert Catalog.Uncached(["b"], ["a"]) == ["b"];
    assert Catalog.Uncached(["a", "b"], ["a"]) == ["b"];
  }

  /** Staging "b" pushes its URL and its cover, then stops at the missing title. */
  lemma ExampleStaleStage()
    ensures StagePage(State([], ["Ta"], ["Da"], ["Ca"], ["Xa"], ["a"]), "b", Page(None, Some("Db"), Some("Cb"), Some("Xb")))
            == RefreshResult(State(["b"], ["Ta"], ["Da"], ["Ca", "Cb", "Cb"], ["Xa"], ["a"]), LookupFailed("b", TitleSlot))
  {
    assert [] + ["b"] == ["b"];
    assert ["Ca"] + ["Cb", "Cb"] == ["Ca", "Cb", "Cb"];
  }

  lemma ExampleStaleRefresh()
    ensures RefreshStep(State([], ["Ta"], ["Da"], ["Ca"], ["Xa"], ["a"]), ExampleSitemap, ExamplePages)
            == RefreshResult(State(["b"], ["Ta"], ["Da"], ["Ca", "Cb", "Cb"], ["Xa"], ["a"]), LookupFailed("b", TitleSlot))
  {
    var s := State([], ["Ta"], ["Da"], ["Ca"], ["Xa"], ["a"]);
    assert SkipStaged(s) == s;
    ExampleStaleCandidate();
    assert ExamplePages("b") == Some(Page(None, Some("Db"), Some("Cb"), Some("Xb")));
    ExampleStaleStage();
  }

  lemma ExampleStaleAdd(w: Client)
    ensures AddStep(State(["b"], ["Ta"], ["Da"], ["Ca", "Cb", "Cb"], ["Xa"], ["a"]), w, Identity, ExampleMedia, ExamplePost)
            == AddResult(State([], [], [], ["Ca", "Cb"], [], ["a", "b"]), Recorded(JsonInt(9)),
                         [UploadRequest(w, "Cb", "Ta", "Da"), CreatePostRequest(w, "Ta", "Xa", JsonInt(7))])
  {
  }

  /**
   * The source's refresh is not atomic. After "a" is published, a refresh
   * that selects "b" pushes its URL and its cover, then raises at the missing
   * `og:title`; the next add publishes a post with the title, description and
   * text of "a" and the cover of "b", and records "b" as done.
   */
  lemma StaleFieldsPublished(w: Client)
    ensures var s2 := State([], ["Ta"], ["Da"], ["Ca"], ["Xa"], ["a"]);
            var r3 := RefreshStep(s2, ExampleSitemap, ExamplePages);
            var r4 := AddStep(r3.state, w, Identity, ExampleMedia, ExamplePost);
            && Run(Empty, [RefreshCmd(ExampleSitemap), AddCmd(ExampleMedia, ExamplePost)], Env(ExamplePages, Identity, w), false) == s2
            && r3.outcome == LookupFailed("b", TitleSlot)
            && r4.outcome == Recorded(JsonInt(9))
            && r4.state.cache == ["a", "b"]
            && r4.calls == [UploadRequest(w, "Cb", "Ta", "Da"), CreatePostRequest(w, "Ta", "Xa", JsonInt(7))]
            && ExamplePages("b").value.cover == Some("Cb") && ExamplePages("b").value.text == Some("Xb")
  {
    var s2 := State([], ["Ta"], ["Da"], ["Ca"], ["Xa"], ["a"]);
    var s3 := State(["b"], ["Ta"], ["Da"], ["Ca", "Cb", "Cb"], ["Xa"], ["a"]);
    ExampleFirstCommit(w, ExamplePages);
    ExampleStaleRefresh();
    var r3 := RefreshStep(s2, ExampleSitemap, ExamplePages);
    assert r3.state == s3 && r3.outcome == LookupFailed("b", TitleSlot);
    ExampleStaleAdd(w);
    assert ExamplePages("b") == Some(Page(None, Some("Db"), Some("Cb"), Some("Xb")));
  }

  /**
   * For every input, as written: when a refresh stops at a missing
   * `og:title`, the next add uploads the new page's cover under the title and
   * description staged before it, posts the text staged before it, and
   * records the new URL when both replies succeed.
   */
  lemma MissingTitlePublishesStaleFields(s: State, sitemap: Option<seq<string>>, fetch: string -> Option<Page>,
                                         w: Client, translate: string -> string, media: MediaReply, post: PostReply)
    requires RefreshStep(s, sitemap, fetch).outcome.LookupFailed?
    requires RefreshStep(s, sitemap, fetch).outcome.slot == TitleSlot
    requires |SkipStaged(s).title| > 0 && |SkipStaged(s).description| > 0 && |SkipStaged(s).text| > 0
    ensures var r := RefreshStep(s, sitemap, fetch);
            var s1 := SkipStaged(s);
            var a := AddStep(r.state, w, translate, media, post);
            && fetch(r.outcome.url).Some? && fetch(r.outcome.url).value.cover.Some?
            && a.calls[0] == UploadRequest(w, fetch(r.outcome.url).value.cover.value,
                                           translate(Last(s1.title)), translate(Last(s1.description)))
            && (|a.calls| == 2 ==>
                  a.calls[1] == CreatePostRequest(w, translate(Last(s1.title)), translate(Last(s1.text)), media.id.value))
            && a.state.cache == if a.outcome.Recorded? then s1.cache + [r.outcome.url] else s1.cache
  {
    var r := RefreshStep(s, sitemap, fetch);
    var page := fetch(r.outcome.url).value;
    assert MissingSlot(page) == Some(TitleSlot);
    assert Last(r.state.url) == r.outcome.url;
  }

  /**
   * For every input, as written: when a refresh stops at a missing `og:image`,
   * only its URL is staged, so the next add publishes the four fields staged
   * before it and records the new URL when both replies succeed.
   */
  lemma MissingCoverRepublishesPrevious(s: State, sitemap: Option<seq<string>>, fetch: string -> Option<Page>,
                                        w: Client, translate: string -> string, media: MediaReply, post: PostReply)
    requires RefreshStep(s, sitemap, fetch).outcome.LookupFailed?
    requires RefreshStep(s, sitemap, fetch).outcome.slot == CoverSlot
    requires var s1 := SkipStaged(s);
             |s1.title| > 0 && |s1.description| > 0 && |s1.cover| > 0 && |s1.text| > 0
    ensures var r := RefreshStep(s, sitemap, fetch);
            var s1 := SkipStaged(s);
            var a := AddStep(r.state, w, translate, media, post);
            && a.calls[0] == UploadRequest(w, Last(s1.cover), translate(Last(s1.title)), translate(Last(s1.description)))
            && (|a.calls| == 2 ==>
                  a.calls[1] == CreatePostRequest(w, translate(Last(s1.title)), translate(Last(s1.text)), media.id.value))
            && a.state.cache == if a.outcome.Recorded? then s1.cache + [r.outcome.url] else s1.cache
  {
    var r := RefreshStep(s, sitemap, fetch);
    var page := fetch(r.outcome.url).value;
    assert MissingSlot(page) == Some(CoverSlot);
    assert Last(r.state.url) == r.outcome.url;
  }

  /** Article "a" has all four elements; article "b" has no `og:image`. */
  function ExamplePagesNoCover(u: string): Option<Page> {
    if u == "a" then Some(FullPage("Ta", "Da", "Ca", "Xa"))
    else Some(Page(Some("Tb"), Some("Db"), None, Some("Xb")))
  }

  /** With "a" committed, a refresh picks "b" and stages only its URL. */
  lemma ExampleNoCoverRefresh()
    ensures RefreshStep(State([], ["Ta"], ["Da"], ["Ca"], ["Xa"], ["a"]), ExampleSitemap, ExamplePagesNoCover)
            == RefreshResult(State(["b"], ["Ta"], ["Da"], ["Ca"], ["Xa"], ["a"]), LookupFailed("b", CoverSlot))
  {
    var s := State([], ["Ta"], ["Da"], ["Ca"], ["Xa"], ["a"]);
    assert SkipStaged(s) == s;
    ExampleStaleCandidate();
    assert ExamplePagesNoCover("b") == Some(Page(Some("Tb"), Some("Db"), None, Some("Xb")));
    ExampleNoCoverStage();
  }

  lemma ExampleNoCoverStage()
    ensures StagePage(State([], ["Ta"], ["Da"], ["Ca"], ["Xa"], ["a"]), "b", Page(Some("Tb"), Some("Db"), None, Some("Xb")))
            == RefreshResult(State(["b"], ["Ta"], ["Da"], ["Ca"], ["Xa"], ["a"]), LookupFailed("b", CoverSlot))
  {
    assert [] + ["b"] == ["b"];
  }

  lemma ExampleNoCoverAdd(w: Client)
    ensures AddStep(State(["b"], ["Ta"], ["Da"], ["Ca"], ["Xa"], ["a"]), w, Identity, ExampleMedia, ExamplePost)
            == AddResult(State([], [], [], [], [], ["a", "b"]), Recorded(JsonInt(9)),
                         [UploadRequest(w, "Ca", "Ta", "Da"), CreatePostRequest(w, "Ta", "Xa", JsonInt(7))])
  {
  }

  /**
   * A page without `og:image` makes the source publish the previous article a
   * second time: the fourth command sends exactly the requests of the second,
   * and "b" is recorded as done without ever being published.
   */
  lemma DuplicatePostOfPrevious(w: Client)
    ensures var s1 := RefreshStep(Empty, ExampleSitemap, ExamplePagesNoCover).state;
            var a2 := AddStep(s1, w, Identity, ExampleMedia, ExamplePost);
            var r3 := RefreshStep(a2.state, ExampleSitemap, ExamplePagesNoCover);
            var a4 := AddStep(r3.state, w, Identity, ExampleMedia, ExamplePost);
            && a2.outcome == Recorded(JsonInt(9)) && a2.state.cache == ["a"]
            && r3.outcome == LookupFailed("b", CoverSlot)
            && a4.outcome == Recorded(JsonInt(9)) && a4.state.cache == ["a", "b"]
            && a4.calls == a2.calls
  {
    ExampleFirstRefresh(ExamplePagesNoCover);
    ExampleFirstAdd(w);
    ExampleNoCoverRefresh();
    ExampleNoCoverAdd(w);
  }
}
